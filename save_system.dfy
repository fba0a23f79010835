/**
 * The persistent economy record of save_system.py: a coin balance, the best
 * score so far and one level per purchasable upgrade.
 */
module Saves {

  /** The upgrade keys a fresh save holds, in the order the save lists them. */
  const UpgradeNames: seq<string> :=
    ["jump_boost", "coin_multiplier", "speed_boost", "shield", "slow_motion"]

  /** `SaveSystem.data`: the three entries of the saved dictionary. */
  datatype SaveData = SaveData(coins: int, highScore: int, upgrades: map<string, int>)

  /** Every upgrade key the game reads is present. */
  predicate HasAllUpgrades(d: SaveData)
  {
    forall n :: n in UpgradeNames ==> n in d.upgrades
  }

  /** The record a save system holds before any file is read. */
  function DefaultData(): (d: SaveData)
    ensures d.coins == 0 && d.highScore == 0
    ensures d.upgrades.Keys == set n | n in UpgradeNames
    ensures forall n :: n in d.upgrades ==> d.upgrades[n] == 0
    ensures HasAllUpgrades(d)
  {
    SaveData(0, 0, map["jump_boost" := 0, "coin_multiplier" := 0, "speed_boost" := 0,
                       "shield" := 0, "slow_motion" := 0])
  }

  /** `add_coins`: the balance moves by exactly `amount`; nothing else changes. */
  function Added(d: SaveData, amount: int): (r: SaveData)
    ensures r.coins == d.coins + amount
    ensures r.highScore == d.highScore && r.upgrades == d.upgrades
  {
    d.(coins := d.coins + amount)
  }

  /**
   * `spend_coins`: pays only when the balance covers the amount; a refusal
   * leaves the record as it was.
   */
  function Spent(d: SaveData, amount: int): (r: (bool, SaveData))
    ensures r.0 <==> d.coins >= amount
    ensures r.0 ==> r.1.coins == d.coins - amount && r.1.highScore == d.highScore
                    && r.1.upgrades == d.upgrades
    ensures !r.0 ==> r.1 == d
    ensures d.coins >= 0 && amount >= 0 ==> r.1.coins >= 0
  {
    if d.coins >= amount then (true, d.(coins := d.coins - amount)) else (false, d)
  }

  /**
   * `update_high_score`: reports whether `score` beats the record; the record
   * becomes the larger of the two.
   */
  function HighScoreUpdated(d: SaveData, score: int): (r: (bool, SaveData))
    ensures r.0 <==> score > d.highScore
    ensures r.1.highScore >= d.highScore && r.1.highScore >= score
    ensures r.1.highScore == d.highScore || r.1.highScore == score
    ensures r.1.coins == d.coins && r.1.upgrades == d.upgrades
  {
    if score > d.highScore then (true, d.(highScore := score)) else (false, d)
  }

  /** `upgrade_item`: one level more for a known upgrade; an unknown name changes nothing. */
  function Upgraded(d: SaveData, name: string): (r: SaveData)
    ensures r.coins == d.coins && r.highScore == d.highScore
    ensures r.upgrades.Keys == d.upgrades.Keys
    ensures name in d.upgrades ==> r.upgrades[name] == d.upgrades[name] + 1
    ensures forall n :: n in d.upgrades && n != name ==> r.upgrades[n] == d.upgrades[n]
    ensures name !in d.upgrades ==> r == d
  {
    if name in d.upgrades then d.(upgrades := d.upgrades[name := d.upgrades[name] + 1]) else d
  }

  /**
   * From a non-negative balance, spending what was just added succeeds and
   * gives back the record before the addition.
   */
  lemma SpendUndoesAdd(d: SaveData, amount: int)
    requires d.coins >= 0
    ensures Spent(Added(d, amount), amount) == (true, d)
  {
    var back := Spent(Added(d, amount), amount).1;
    assert back == SaveData(d.coins, d.highScore, d.upgrades);
  }

  /** Adding back what a successful spend took restores the record. */
  lemma AddUndoesSpend(d: SaveData, amount: int)
    requires Spent(d, amount).0
    ensures Added(Spent(d, amount).1, amount) == d
  {
  }

  /** A second update with the same score is no longer a new record and changes nothing. */
  lemma HighScoreIdempotent(d: SaveData, score: int)
    ensures var once := HighScoreUpdated(d, score).1;
            HighScoreUpdated(once, score) == (false, once)
  {
  }

  /** A successful spend never takes a non-negative balance below zero, whatever was asked. */
  lemma SpendKeepsBalance(d: SaveData, amount: int)
    requires d.coins >= 0
    ensures Spent(d, amount).1.coins >= 0
  {
  }

  /** `SaveSystem`: owns `data` and changes it in place. */
  class SaveSystem {
    var data: SaveData

    ghost predicate Valid()
      reads this
    {
      HasAllUpgrades(data)
    }

    /** A fresh save; reading a save file is not part of this model. */
    constructor ()
      ensures data == DefaultData() && Valid()
    {
      data := SaveData(0, 0, map["jump_boost" := 0, "coin_multiplier" := 0,
                                 "speed_boost" := 0, "shield" := 0, "slow_motion" := 0]);
    }

    method AddCoins(amount: int)
      modifies this
      ensures data == Added(old(data), amount)
    {
      data := data.(coins := data.coins + amount);
    }

    method SpendCoins(amount: int) returns (ok: bool)
      modifies this
      ensures (ok, data) == Spent(old(data), amount)
    {
      if data.coins >= amount {
        data := data.(coins := data.coins - amount);
        return true;
      }
      return false;
    }

    method UpdateHighScore(score: int) returns (isNew: bool)
      modifies this
      ensures (isNew, data) == HighScoreUpdated(old(data), score)
    {
      if score > data.highScore {
        data := data.(highScore := score);
        return true;
      }
      return false;
    }

    method UpgradeItem(name: string)
      modifies this
      ensures data == Upgraded(old(data), name)
    {
      if name in data.upgrades {
        data := data.(upgrades := data.upgrades[name := data.upgrades[name] + 1]);
      }
    }
  }
}
