/**
 * The screens of game_states.py: the main menu, the playing screen and the
 * game-over screen. Their key handlers are pure tables; the playing screen
 * keeps the score and the coins of the current run and credits coins to the
 * save system; the game-over screen records the high score once.
 *
 * The upgrade-driven player and obstacle manager the playing screen owns are
 * not part of this model: what one update of theirs reports (how many
 * obstacles were passed, whether the player collided) is a parameter.
 */
module GameStates {
  import opened Wrappers
  import opened Input
  import opened Saves

  /** `MenuState.handle_event`: SPACE starts a game, S opens the shop. */
  function MenuResult(e: Event): (r: Option<string>)
    ensures r == Some("game") <==> e == KeyPress(KeySpace)
    ensures r == Some("shop") <==> e == KeyPress(KeyS)
    ensures r.None? <==> e != KeyPress(KeySpace) && e != KeyPress(KeyS)
  {
    match e
    case KeyPress(k) =>
      if k == KeySpace then Some("game")
      else if k == KeyS then Some("shop")
      else None
    case _ => None
  }

  /** `GameState_Playing.handle_event`: ESC goes back to the menu. */
  function PlayingResult(e: Event): (r: Option<string>)
    ensures r == Some("menu") <==> e == KeyPress(KeyEscape)
    ensures r.None? <==> e != KeyPress(KeyEscape)
  {
    match e
    case KeyPress(k) => if k == KeyEscape then Some("menu") else None
    case _ => None
  }

  /** `GameOverState.handle_event`: R plays again, M goes to the menu, ESC quits. */
  function GameOverResult(e: Event): (r: Option<string>)
    ensures r == Some("game") <==> e == KeyPress(KeyR)
    ensures r == Some("menu") <==> e == KeyPress(KeyM)
    ensures r == Some("quit") <==> e == KeyPress(KeyEscape)
    ensures r.None? <==> e != KeyPress(KeyR) && e != KeyPress(KeyM) && e != KeyPress(KeyEscape)
  {
    match e
    case KeyPress(k) =>
      if k == KeyR then Some("game")
      else if k == KeyM then Some("menu")
      else if k == KeyEscape then Some("quit")
      else None
    case _ => None
  }

  /**
   * The coins `passed` obstacles earn at coin-multiplier level `level`:
   * `passed` times one more than the level.
   */
  function CoinsEarned(passed: nat, level: int): (c: int)
    ensures passed == 0 ==> c == 0
    ensures level >= 0 ==> c >= passed
    ensures c == passed + passed * level
  {
    passed * (1 + level)
  }

  /**
   * The whole seconds the HUD shows for a shield cooldown of `cooldown`
   * frames (60 per second): the second the cooldown is in, counted from one.
   */
  function CooldownSeconds(cooldown: int): (s: int)
    requires cooldown > 0
    ensures s >= 1
    ensures 60 * (s - 1) <= cooldown < 60 * s
  {
    cooldown / 60 + 1
  }

  /** At a whole number of seconds the HUD shows one second more than is left. */
  lemma CooldownAtWholeSeconds(n: int)
    requires n > 0
    ensures CooldownSeconds(60 * n) == n + 1
  {
    assert 60 * n < 60 * (n + 1);
  }

  /** The score and coin count of the current run. */
  datatype RunTally = RunTally(score: int, coinsThisRun: int)

  /** `reset_game`: a run starts with no score and no coins. */
  const FreshRun: RunTally := RunTally(0, 0)

  /**
   * `GameState_Playing.update` on the run and the save record: the passed
   * obstacles' coins go to both, the score rises by one, and the result is
   * "game_over" when the player collided.
   */
  function PlayTick(t: RunTally, d: SaveData, passed: nat, collided: bool): (r: (RunTally, SaveData, Option<string>))
    requires "coin_multiplier" in d.upgrades
    ensures r.0.score == t.score + 1
    ensures r.0.coinsThisRun - t.coinsThisRun == r.1.coins - d.coins
                                           == CoinsEarned(passed, d.upgrades["coin_multiplier"])
    ensures r.1.highScore == d.highScore && r.1.upgrades == d.upgrades
    ensures r.2 == (if collided then Some("game_over") else None)
  {
    var credited :=
      if passed > 0 then
        var coins := CoinsEarned(passed, d.upgrades["coin_multiplier"]);
        (t.(coinsThisRun := t.coinsThisRun + coins), Added(d, coins))
      else (t, d);
    (credited.0.(score := credited.0.score + 1), credited.1, if collided then Some("game_over") else None)
  }

  /** What one update of the player and the obstacles reported. */
  datatype TickReport = TickReport(passed: nat, collided: bool)

  /** The run and save record after the updates `ticks`, in order. */
  function PlayTicks(t: RunTally, d: SaveData, ticks: seq<TickReport>): (r: (RunTally, SaveData))
    requires "coin_multiplier" in d.upgrades
    ensures r.1.upgrades == d.upgrades
  {
    if |ticks| == 0 then (t, d)
    else
      var before := PlayTicks(t, d, ticks[..|ticks| - 1]);
      var last := ticks[|ticks| - 1];
      var after := PlayTick(before.0, before.1, last.passed, last.collided);
      (after.0, after.1)
  }

  /**
   * Over any run, the score counts the updates, the save gained exactly the
   * coins the run shows, and nothing else in the save changed.
   */
  lemma {:induction false} RunMatchesSave(t: RunTally, d: SaveData, ticks: seq<TickReport>)
    requires "coin_multiplier" in d.upgrades
    ensures var r := PlayTicks(t, d, ticks);
            && r.0.score == t.score + |ticks|
            && r.1.coins - d.coins == r.0.coinsThisRun - t.coinsThisRun
            && r.1.highScore == d.highScore
  {
    if |ticks| > 0 {
      RunMatchesSave(t, d, ticks[..|ticks| - 1]);
    }
  }

  /** With a non-negative multiplier level, every passed obstacle earns at least one coin. */
  lemma {:induction false} RunEarnsPerObstacle(t: RunTally, d: SaveData, ticks: seq<TickReport>)
    requires "coin_multiplier" in d.upgrades && d.upgrades["coin_multiplier"] >= 0
    ensures PlayTicks(t, d, ticks).0.coinsThisRun >= t.coinsThisRun + Passed(ticks)
  {
    if |ticks| > 0 {
      RunEarnsPerObstacle(t, d, ticks[..|ticks| - 1]);
      RunMatchesSave(t, d, ticks[..|ticks| - 1]);
    }
  }

  /** The obstacles passed over `ticks`. */
  function Passed(ticks: seq<TickReport>): nat
  {
    if |ticks| == 0 then 0 else Passed(ticks[..|ticks| - 1]) + ticks[|ticks| - 1].passed
  }

  /** What the game-over screen shows. */
  datatype Summary = Summary(finalScore: int, coinsEarned: int, newHighScore: bool)

  /**
   * `GameState_Playing`: the run's score and coins change in place; the save
   * system is shared with the rest of the game.
   */
  class Playing {
    const saves: SaveSystem
    var score: int
    var coinsThisRun: int

    function Tally(): RunTally
      reads this
    {
      RunTally(score, coinsThisRun)
    }

    constructor (saves: SaveSystem)
      ensures this.saves == saves && Tally() == FreshRun
    {
      this.saves := saves;
      score := 0;
      coinsThisRun := 0;
    }

    /** `reset_game`: a new run. */
    method ResetGame()
      modifies this
      ensures Tally() == FreshRun
    {
      score := 0;
      coinsThisRun := 0;
    }

    /** `update`, given what the player and the obstacle manager reported. */
    method Update(passed: nat, collided: bool) returns (r: Option<string>)
      requires "coin_multiplier" in saves.data.upgrades
      modifies this, saves
      ensures (Tally(), saves.data, r) == PlayTick(old(Tally()), old(saves.data), passed, collided)
    {
      if passed > 0 {
        var coins := passed * (1 + saves.data.upgrades["coin_multiplier"]);
        coinsThisRun := coinsThisRun + coins;
        saves.AddCoins(coins);
      }
      score := score + 1;
      if collided {
        return Some("game_over");
      }
      return None;
    }
  }

  /** `GameOverState`: the final score and coins, and whether they set a record. */
  class GameOverState {
    const finalScore: int
    const coinsEarned: int
    const newHighScore: bool

    function Shown(): Summary
    {
      Summary(finalScore, coinsEarned, newHighScore)
    }

    /** Records the high score; writing the save file is not part of this model. */
    constructor (saves: SaveSystem, finalScore: int, coinsEarned: int)
      modifies saves
      ensures this.finalScore == finalScore && this.coinsEarned == coinsEarned
      ensures (newHighScore, saves.data) == HighScoreUpdated(old(saves.data), finalScore)
    {
      this.finalScore := finalScore;
      this.coinsEarned := coinsEarned;
      var isNew := saves.UpdateHighScore(finalScore);
      newHighScore := isNew;
    }
  }
}
