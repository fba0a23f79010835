/**
 * The screen manager of game_manager.py: four named slots (menu, game, shop,
 * game over), the name of the current one, the state change that fills the
 * game and game-over slots, and the main loop that hands each frame's events
 * and one update to the state that was current when the frame began.
 *
 * The window, the clock and the drawing are not part of this model; the
 * events of a frame, and what the playing screen's player and obstacles
 * reported for it, are parameters.
 */
module GameFlow {
  import opened Wrappers
  import opened Input
  import opened Saves
  import opened Shops
  import opened GameStates

  /** The manager seen as values: current name, the two optional slots, the save record. */
  datatype Screens = Screens(current: string, game: Option<RunTally>, gameOver: Option<Summary>,
                             save: SaveData)

  /** `__init__`: the menu is current and neither a game nor a game-over screen exists yet. */
  function StartScreens(d: SaveData): (s: Screens)
    ensures s.current == "menu" && s.game.None? && s.gameOver.None? && s.save == d
  {
    Screens("menu", None, None, d)
  }

  /** `states.get(name)` finds a state: the menu and the shop always, the other two once built. */
  predicate SlotFilled(s: Screens, name: string)
  {
    || name == "menu" || name == "shop"
    || (name == "game" && s.game.Some?)
    || (name == "game_over" && s.gameOver.Some?)
  }

  /**
   * `change_state`: "game" installs a new run; "game_over" builds the
   * game-over screen from the run and records the high score, but only when
   * a run exists; the name always becomes current.
   */
  function Changed(s: Screens, name: string): (r: Screens)
    ensures r.current == name
    ensures name == "game" ==> r.game == Some(FreshRun) && r.gameOver == s.gameOver && r.save == s.save
    ensures name == "game_over" && s.game.Some? ==>
      && r.game == s.game
      && r.gameOver == Some(Summary(s.game.value.score, s.game.value.coinsThisRun,
                                    s.game.value.score > s.save.highScore))
      && r.save == HighScoreUpdated(s.save, s.game.value.score).1
    ensures name != "game" && (name != "game_over" || s.game.None?) ==> r == s.(current := name)
  {
    if name == "game" then
      s.(current := name, game := Some(FreshRun))
    else if name == "game_over" && s.game.Some? then
      var run := s.game.value;
      var recorded := HighScoreUpdated(s.save, run.score);
      s.(current := name, gameOver := Some(Summary(run.score, run.coinsThisRun, recorded.0)),
         save := recorded.1)
    else
      s.(current := name)
  }

  /** Python's truth value of a handler's result: a non-empty name. */
  predicate Named(result: Option<string>)
  {
    result.Some? && |result.value| > 0
  }

  /**
   * The rule for a handler's result: nothing, or the current name, is
   * ignored; "quit" stops the loop without changing state; any other name
   * becomes current. The flag is whether the loop stops.
   */
  function Dispatched(s: Screens, result: Option<string>): (r: (Screens, bool))
    ensures r.1 <==> Named(result) && result.value != s.current && result.value == "quit"
    ensures !Named(result) || result.value == s.current || result.value == "quit" ==> r.0 == s
    ensures Named(result) && result.value != s.current && result.value != "quit" ==>
      r.0 == Changed(s, result.value)
  {
    if !Named(result) || result.value == s.current then (s, false)
    else if result.value == "quit" then (s, true)
    else (Changed(s, result.value), false)
  }

  /** The same rule for the result of `update`, which has no "quit" case. */
  function UpdateDispatched(s: Screens, result: Option<string>): (r: Screens)
    ensures !Named(result) || result.value == s.current ==> r == s
    ensures Named(result) && result.value != s.current ==> r == Changed(s, result.value)
  {
    if !Named(result) || result.value == s.current then s else Changed(s, result.value)
  }

  /** Which kind of state a frame talks to. */
  datatype Kind = MenuKind | GameKind | ShopKind | GameOverKind

  function KindOf(name: string): Kind
  {
    if name == "game" then GameKind
    else if name == "shop" then ShopKind
    else if name == "game_over" then GameOverKind
    else MenuKind
  }

  /** `Shop.handle_event` on the save record: its result and the record after it. */
  function ShopHandled(d: SaveData, e: Event): (r: (Option<string>, SaveData))
    requires HasAllUpgrades(d)
    ensures r.0 == (if ShopCommandOf(e) == ToMenu then Some("menu") else None)
    ensures HasAllUpgrades(r.1)
  {
    match ShopCommandOf(e)
    case ToMenu => (Some("menu"), d)
    case BuySlot(i) => (None, Buy(Catalog(), d, ItemNames[i]).1)
    case NoCommand => (None, d)
  }

  /** A state's `handle_event`: its result and the save record after it. */
  function HandledBy(k: Kind, e: Event, d: SaveData): (r: (Option<string>, SaveData))
    requires HasAllUpgrades(d)
    ensures HasAllUpgrades(r.1)
    ensures k != ShopKind ==> r.1 == d
  {
    match k
    case MenuKind => (MenuResult(e), d)
    case GameKind => (PlayingResult(e), d)
    case ShopKind => ShopHandled(d, e)
    case GameOverKind => (GameOverResult(e), d)
  }

  /** One event of a frame: QUIT clears the flag; any other goes to the frame's state. */
  function EventStep(k: Kind, s: Screens, running: bool, e: Event): (r: (Screens, bool))
    requires HasAllUpgrades(s.save)
    ensures HasAllUpgrades(r.0.save)
  {
    if e == Quit then (s, false)
    else
      var handled := HandledBy(k, e, s.save);
      var dispatched := Dispatched(s.(save := handled.1), handled.0);
      (dispatched.0, running && !dispatched.1)
  }

  /** The events of a frame, in order, all handled by the state of kind `k`. */
  function EventsHandled(k: Kind, s: Screens, running: bool, events: seq<Event>): (r: (Screens, bool))
    requires HasAllUpgrades(s.save)
    ensures HasAllUpgrades(r.0.save)
  {
    if |events| == 0 then (s, running)
    else
      var before := EventsHandled(k, s, running, events[..|events| - 1]);
      EventStep(k, before.0, before.1, events[|events| - 1])
  }

  /**
   * The update of a frame: only the playing screen's `update` can change
   * anything (the menu's and the game-over screen's return nothing, the
   * shop has none).
   */
  function FrameUpdated(k: Kind, s: Screens, report: TickReport): (r: Screens)
    requires HasAllUpgrades(s.save)
    ensures HasAllUpgrades(r.save)
  {
    if k == GameKind && s.game.Some? then
      var ticked := PlayTick(s.game.value, s.save, report.passed, report.collided);
      UpdateDispatched(s.(game := Some(ticked.0), save := ticked.1), ticked.2)
    else s
  }

  /**
   * One pass of `run`'s loop: stop at once if the current slot is empty;
   * otherwise the events and then the update go to the state that was
   * current when the pass began. The flag is whether the loop goes on.
   */
  function Frame(s: Screens, events: seq<Event>, report: TickReport): (r: (Screens, bool))
    requires HasAllUpgrades(s.save)
    ensures HasAllUpgrades(r.0.save)
    ensures !SlotFilled(s, s.current) ==> r == (s, false)
  {
    if !SlotFilled(s, s.current) then (s, false)
    else
      var k := KindOf(s.current);
      var handled := EventsHandled(k, s, true, events);
      (FrameUpdated(k, handled.0, report), handled.1)
  }

  /**
   * What every reachable configuration keeps: the current slot is filled, a
   * game-over screen exists only after a run, and the name is one of the
   * four slots.
   */
  predicate Consistent(s: Screens)
  {
    && SlotFilled(s, s.current)
    && (s.gameOver.Some? ==> s.game.Some?)
    && HasAllUpgrades(s.save)
  }

  /** The start is consistent. */
  lemma StartConsistent()
    ensures Consistent(StartScreens(DefaultData()))
  {
  }

  /** Every result a state's handler gives is nothing, "quit", or the name of a slot. */
  lemma HandledNames(k: Kind, e: Event, d: SaveData)
    requires HasAllUpgrades(d)
    ensures var result := HandledBy(k, e, d).0;
            result.None? || result.value in {"menu", "game", "shop", "game_over", "quit"}
    ensures HandledBy(k, e, d).0 == Some("quit") ==> k == GameOverKind
  {
  }

  /**
   * The event phase of a frame keeps the configuration consistent, never
   * makes "quit" current, and keeps the run of a playing frame.
   */
  lemma {:induction false} EventsKeepConsistent(k: Kind, s: Screens, running: bool, events: seq<Event>)
    requires Consistent(s)
    ensures Consistent(EventsHandled(k, s, running, events).0)
    ensures k == GameKind ==> EventsHandled(k, s, running, events).0.game == s.game
  {
    if |events| > 0 {
      EventsKeepConsistent(k, s, running, events[..|events| - 1]);
      var before := EventsHandled(k, s, running, events[..|events| - 1]);
      var e := events[|events| - 1];
      if e != Quit {
        HandledNames(k, e, before.0.save);
      }
    }
  }

  /**
   * A frame keeps the configuration consistent. So from the start the loop
   * never meets an empty slot: it only ends through QUIT or "quit".
   */
  lemma FrameKeepsConsistent(s: Screens, events: seq<Event>, report: TickReport)
    requires Consistent(s)
    ensures Consistent(Frame(s, events, report).0)
  {
    var k := KindOf(s.current);
    EventsKeepConsistent(k, s, true, events);
  }

  /**
   * The loop flag after a frame's events: it stays up exactly when no event
   * is QUIT and, in a game-over frame, none is ESC.
   */
  lemma {:induction false} EventsStopExactly(k: Kind, s: Screens, running: bool, events: seq<Event>)
    requires Consistent(s)
    ensures EventsHandled(k, s, running, events).1 <==>
      running && Quit !in events && !(k == GameOverKind && KeyPress(KeyEscape) in events)
  {
    if |events| > 0 {
      var init := events[..|events| - 1];
      var e := events[|events| - 1];
      assert events == init + [e];
      EventsStopExactly(k, s, running, init);
      EventsKeepConsistent(k, s, running, init);
      var before := EventsHandled(k, s, running, init);
      if e != Quit {
        HandledNames(k, e, before.0.save);
      }
    }
  }

  /**
   * From a consistent configuration a frame ends the loop exactly when one
   * of its events is QUIT, or it is a game-over frame and one is ESC.
   */
  lemma FrameStopsExactly(s: Screens, events: seq<Event>, report: TickReport)
    requires Consistent(s)
    ensures !Frame(s, events, report).1 <==>
      Quit in events || (KindOf(s.current) == GameOverKind && KeyPress(KeyEscape) in events)
  {
    EventsStopExactly(KindOf(s.current), s, true, events);
  }

  /**
   * ESC in a playing frame goes to the menu, but the same frame's update
   * still runs on the run it left: if that update reports a collision, the
   * frame ends on the game-over screen instead.
   */
  lemma EscapeThenCollision(s: Screens, passed: nat)
    requires Consistent(s) && s.current == "game"
    ensures var r := Frame(s, [KeyPress(KeyEscape)], TickReport(passed, true));
            r.1 && r.0.current == "game_over"
            && r.0.gameOver.Some? && r.0.gameOver.value.finalScore == s.game.value.score + 1
  {
    var e := KeyPress(KeyEscape);
    assert [e][..0] == [];
    assert EventsHandled(GameKind, s, true, [e]) == EventStep(GameKind, s, true, e);
    assert HandledBy(GameKind, e, s.save) == (Some("menu"), s.save);
    assert s.(save := s.save) == s;
    var left := Changed(s, "menu");
    assert EventStep(GameKind, s, true, e) == (left, true);
    var ticked := PlayTick(left.game.value, left.save, passed, true);
    assert FrameUpdated(GameKind, left, TickReport(passed, true))
        == Changed(left.(game := Some(ticked.0), save := ticked.1), "game_over");
  }

  /** The start of a run: R on the game-over screen replaces the old run with a new one. */
  lemma PlayAgainStartsFresh(s: Screens, report: TickReport)
    requires Consistent(s) && s.current == "game_over"
    ensures var r := Frame(s, [KeyPress(KeyR)], report);
            r.1 && r.0.current == "game" && r.0.game == Some(FreshRun)
  {
    var e := KeyPress(KeyR);
    assert [e][..0] == [];
    assert EventsHandled(GameOverKind, s, true, [e]) == EventStep(GameOverKind, s, true, e);
    assert HandledBy(GameOverKind, e, s.save) == (Some("game"), s.save);
    assert s.(save := s.save) == s;
    assert EventStep(GameOverKind, s, true, e) == (Changed(s, "game"), true);
  }

  /** The input of one pass of the loop: its events and what the playing screen's update reported. */
  datatype Pass = Pass(events: seq<Event>, report: TickReport)

  /**
   * `run` over the passes `passes`, as far as they go: the configuration at
   * the end and whether the loop would go on.
   */
  function Played(s: Screens, passes: seq<Pass>): (r: (Screens, bool))
    requires HasAllUpgrades(s.save)
    ensures HasAllUpgrades(r.0.save)
    decreases |passes|
  {
    if |passes| == 0 then (s, true)
    else
      var first := Frame(s, passes[0].events, passes[0].report);
      if first.1 then Played(first.0, passes[1..]) else (first.0, false)
  }

  /** The loop keeps the configuration consistent, however many passes it makes. */
  lemma {:induction false} PlayedKeepsConsistent(s: Screens, passes: seq<Pass>)
    requires Consistent(s)
    ensures Consistent(Played(s, passes).0)
    decreases |passes|
  {
    if |passes| > 0 {
      FrameKeepsConsistent(s, passes[0].events, passes[0].report);
      var first := Frame(s, passes[0].events, passes[0].report);
      if first.1 {
        PlayedKeepsConsistent(first.0, passes[1..]);
      }
    }
  }

  /**
   * From a consistent configuration (the start is one) the loop never stops
   * on an empty slot: it stops only in a pass with QUIT or ESC among its events.
   */
  lemma {:induction false} PlayedStopsOnlyOnRequest(s: Screens, passes: seq<Pass>)
    requires Consistent(s)
    ensures !Played(s, passes).1 ==>
      exists j :: 0 <= j < |passes| && (Quit in passes[j].events || KeyPress(KeyEscape) in passes[j].events)
    decreases |passes|
  {
    if |passes| > 0 {
      FrameStopsExactly(s, passes[0].events, passes[0].report);
      FrameKeepsConsistent(s, passes[0].events, passes[0].report);
      var first := Frame(s, passes[0].events, passes[0].report);
      if first.1 {
        PlayedStopsOnlyOnRequest(first.0, passes[1..]);
        if !Played(first.0, passes[1..]).1 {
          var j :| 0 <= j < |passes[1..]| && (Quit in passes[1..][j].events || KeyPress(KeyEscape) in passes[1..][j].events);
          assert passes[1..][j] == passes[j + 1];
        }
      }
    }
  }

  /** `GameManager`: the slots and the current name change in place. */
  class GameManager {
    const saves: SaveSystem
    const shop: Shop
    var current: string
    var game: Option<Playing>
    var gameOver: Option<GameOverState>

    /** The shop and the playing screen share this manager's save system. */
    ghost predicate Valid()
      reads this, saves, shop
    {
      && saves.Valid()
      && shop.saveSystem == saves && shop.items == Catalog() && shop.itemNames == ItemNames
      && (game.Some? ==> game.value.saves == saves)
    }

    /** The playing screen, the one object besides the save system a frame changes. */
    function Runs(): set<object>
      reads this
    {
      if game.Some? then {game.value} else {}
    }

    function View(): Screens
      reads this, saves, Runs()
    {
      Screens(current, if game.Some? then Some(game.value.Tally()) else None,
              if gameOver.Some? then Some(gameOver.value.Shown()) else None, saves.data)
    }

    /** A fresh save system; loading the save file is not part of this model. */
    constructor ()
      ensures Valid() && View() == StartScreens(DefaultData())
      ensures fresh(saves)
    {
      var saveSystem := new SaveSystem();
      saves := saveSystem;
      shop := new Shop(saveSystem);
      current := "menu";
      game := None;
      gameOver := None;
    }

    method ChangeState(name: string)
      requires Valid()
      modifies this, saves
      ensures Valid() && View() == Changed(old(View()), name)
      ensures name != "game" ==> game == old(game)
      ensures game.Some? && old(game) != game ==> fresh(game.value)
    {
      if name == "game" {
        var run := new Playing(saves);
        game := Some(run);
      } else if name == "game_over" {
        if game.Some? {
          var run := game.value;
          var over := new GameOverState(saves, run.score, run.coinsThisRun);
          gameOver := Some(over);
        }
      }
      current := name;
    }

    /** The `handle_event` of the state of kind `k`. */
    method HandleEvent(k: Kind, e: Event) returns (result: Option<string>)
      requires Valid()
      modifies saves
      ensures Valid()
      ensures (result, saves.data) == HandledBy(k, e, old(saves.data))
    {
      match k {
        case MenuKind => result := MenuResult(e);
        case GameKind => result := PlayingResult(e);
        case ShopKind => result := shop.HandleEvent(e);
        case GameOverKind => result := GameOverResult(e);
      }
    }

    /** One event of a pass: QUIT, or the current state's handler and the dispatch rule. */
    method DispatchEvent(k: Kind, e: Event, running: bool) returns (stillRunning: bool)
      requires Valid()
      modifies this, saves
      ensures Valid()
      ensures (View(), stillRunning) == EventStep(k, old(View()), running, e)
      ensures k == GameKind ==> game == old(game)
      ensures game.Some? && old(game) != game ==> fresh(game.value)
    {
      stillRunning := running;
      if e == Quit {
        stillRunning := false;
      } else {
        var result := HandleEvent(k, e);
        if result.Some? && |result.value| > 0 && result.value != current {
          if result.value == "quit" {
            stillRunning := false;
          } else {
            ChangeState(result.value);
          }
        }
      }
    }

    /** The update of a pass: only a playing frame's run is updated, and its result dispatched. */
    method UpdateFrame(k: Kind, run: Playing?, report: TickReport)
      requires Valid() && (k == GameKind ==> game == Some(run))
      modifies this, saves, Runs()
      ensures Valid()
      ensures View() == FrameUpdated(k, old(View()), report)
      ensures game.Some? && old(game) != game ==> fresh(game.value)
    {
      if k == GameKind {
        var result := run.Update(report.passed, report.collided);
        if result.Some? && |result.value| > 0 && result.value != current {
          ChangeState(result.value);
        }
      }
    }

    /** One pass of `run`'s loop; `running` is whether the loop goes on. */
    method RunFrame(events: seq<Event>, report: TickReport) returns (running: bool)
      requires Valid()
      modifies this, saves, Runs()
      ensures Valid()
      ensures (View(), running) == Frame(old(View()), events, report)
      ensures game.Some? && old(game) != game ==> fresh(game.value)
    {
      if !(current == "menu" || current == "shop" || (current == "game" && game.Some?)
           || (current == "game_over" && gameOver.Some?)) {
        return false;
      }
      var k := KindOf(current);
      ghost var s0 := View();
      var run: Playing? := if k == GameKind then game.value else null;
      running := true;
      var i := 0;
      while i < |events|
        invariant 0 <= i <= |events|
        invariant Valid()
        invariant (View(), running) == EventsHandled(k, s0, true, events[..i])
        invariant k == GameKind ==> game == Some(run)
        invariant game.Some? && old(game) != game ==> fresh(game.value)
      {
        assert events[..i + 1][..i] == events[..i];
        running := DispatchEvent(k, events[i], running);
        i := i + 1;
      }
      assert events[..|events|] == events;
      UpdateFrame(k, run, report);
    }

    /** `run`'s loop over the passes `passes`, until one stops it or they run out. */
    method Run(passes: seq<Pass>) returns (running: bool)
      requires Valid()
      modifies this, saves, Runs()
      ensures Valid()
      ensures (View(), running) == Played(old(View()), passes)
    {
      running := true;
      var i := 0;
      while running && i < |passes|
        invariant 0 <= i <= |passes|
        invariant Valid()
        invariant running ==> Played(old(View()), passes) == Played(View(), passes[i..])
        invariant !running ==> Played(old(View()), passes) == (View(), false)
        invariant game.Some? && old(game) != game ==> fresh(game.value)
      {
        assert passes[i..][1..] == passes[i + 1..];
        running := RunFrame(passes[i].events, passes[i].report);
        i := i + 1;
      }
    }
  }
}
