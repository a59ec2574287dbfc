/**
 * The life counter and win latch of the two teams (class LifeManager in
 * Assets/Scripts/GameManager.cs).
 *
 * Each team shows a row of life objects. Losing a life hides the object at
 * the team's index and advances the index; a team that has run out makes the
 * other team the winner. The two sides are guarded differently in the
 * source: the red side stops one object early (`Length - 1`), the blue side
 * uses the whole row (`Length`). The model keeps that difference and proves
 * its consequence (`RedLosesOnNthHit`, `BlueLosesOnNPlusFirstHit`).
 *
 * The UI panels and the restart button are modelled by their visibility
 * flags only.
 */
module LifeRules {

  /** Everything LifeManager reads or writes, as a value. */
  datatype Board = Board(
    redLives: seq<bool>,      // active flag of each red life object
    currentRedIndex: nat,
    redWins: bool,
    blueLives: seq<bool>,     // active flag of each blue life object
    currentBlueIndex: nat,
    blueWins: bool,
    restart: bool,
    redWinsPanelShown: bool,
    blueWinsPanelShown: bool,
    restartButtonShown: bool)

  function AllActive(n: nat): (r: seq<bool>)
    ensures |r| == n && forall i :: 0 <= i < n ==> r[i]
  {
    seq(n, _ => true)
  }

  /** The red side loses a life; when only its last object is left, blue wins instead. */
  function LoseRedLife(b: Board): Board {
    if b.currentRedIndex < |b.redLives| - 1 then
      b.(redLives := b.redLives[b.currentRedIndex := false], currentRedIndex := b.currentRedIndex + 1)
    else
      b.(blueWins := true)
  }

  /** The blue side loses a life; once every object is hidden, red wins instead. */
  function LoseBlueLife(b: Board): Board {
    if b.currentBlueIndex < |b.blueLives| then
      b.(blueLives := b.blueLives[b.currentBlueIndex := false], currentBlueIndex := b.currentBlueIndex + 1)
    else
      b.(redWins := true)
  }

  /** Run each frame: a win shows its panel (red first) and the restart button, and latches `restart`. */
  function CheckWin(b: Board): Board {
    if b.redWins || b.blueWins then
      b.(redWinsPanelShown := b.redWinsPanelShown || b.redWins,
         blueWinsPanelShown := b.blueWinsPanelShown || (!b.redWins && b.blueWins),
         restartButtonShown := true,
         restart := true)
    else
      b
  }

  /** The restart button's handler: only acts while `restart` is latched. */
  function RestartGame(b: Board): Board {
    if b.restart then
      Board(AllActive(|b.redLives|), 0, false, AllActive(|b.blueLives|), 0, false, false, false, false, false)
    else
      b
  }

  /** The state RestartGame produces: no wins, indices at zero, every life shown, nothing latched. */
  predicate Fresh(b: Board) {
    b.currentRedIndex == 0 && b.currentBlueIndex == 0 &&
    !b.redWins && !b.blueWins && !b.restart &&
    !b.redWinsPanelShown && !b.blueWinsPanelShown && !b.restartButtonShown &&
    (forall i :: 0 <= i < |b.redLives| ==> b.redLives[i]) &&
    (forall i :: 0 <= i < |b.blueLives| ==> b.blueLives[i])
  }

  /** The index bounds each side's guard maintains. */
  predicate Bounded(b: Board) {
    b.currentRedIndex <= (if |b.redLives| == 0 then 0 else |b.redLives| - 1) &&
    b.currentBlueIndex <= |b.blueLives|
  }

  /** Life i of a side is hidden exactly when i is below that side's index. */
  predicate LivesMatchIndices(b: Board) {
    Bounded(b) &&
    (forall i :: 0 <= i < |b.redLives| ==> (!b.redLives[i] <==> i < b.currentRedIndex)) &&
    (forall i :: 0 <= i < |b.blueLives| ==> (!b.blueLives[i] <==> i < b.currentBlueIndex))
  }

  /** The part of the board the red side's losses never touch. */
  function BlueSide(b: Board): (seq<bool>, nat, bool) {
    (b.blueLives, b.currentBlueIndex, b.redWins)
  }

  /** The latch and the visibility of the two panels and the button, which no loss touches. */
  function Display(b: Board): (bool, bool, bool, bool) {
    (b.restart, b.redWinsPanelShown, b.blueWinsPanelShown, b.restartButtonShown)
  }

  /** The part of the board the blue side's losses never touch. */
  function RedSide(b: Board): (seq<bool>, nat, bool) {
    (b.redLives, b.currentRedIndex, b.blueWins)
  }

  /**
   * Losing a red life either hides exactly the life at the index and
   * advances it by one, or (with at most one red life left to show) only
   * declares blue the winner; blue's state is untouched either way.
   */
  lemma LoseRedLifeEffect(b: Board)
    ensures var r := LoseRedLife(b);
      BlueSide(r) == BlueSide(b) && Display(r) == Display(b) && |r.redLives| == |b.redLives| &&
      (if b.currentRedIndex + 1 < |b.redLives| then
         r.currentRedIndex == b.currentRedIndex + 1 && !r.redLives[b.currentRedIndex] &&
         (forall i :: 0 <= i < |b.redLives| && i != b.currentRedIndex ==> r.redLives[i] == b.redLives[i]) &&
         r.blueWins == b.blueWins
       else
         r.blueWins && r.currentRedIndex == b.currentRedIndex && r.redLives == b.redLives)
  {
    if b.currentRedIndex + 1 < |b.redLives| {
      assert LoseRedLife(b) == b.(redLives := b.redLives[b.currentRedIndex := false], currentRedIndex := b.currentRedIndex + 1);
    } else {
      assert LoseRedLife(b) == b.(blueWins := true);
    }
  }

  /**
   * Losing a blue life either hides exactly the life at the index and
   * advances it by one, or (with every blue life hidden) only declares red
   * the winner; red's state is untouched either way.
   */
  lemma LoseBlueLifeEffect(b: Board)
    ensures var r := LoseBlueLife(b);
      RedSide(r) == RedSide(b) && Display(r) == Display(b) && |r.blueLives| == |b.blueLives| &&
      (if b.currentBlueIndex < |b.blueLives| then
         r.currentBlueIndex == b.currentBlueIndex + 1 && !r.blueLives[b.currentBlueIndex] &&
         (forall i :: 0 <= i < |b.blueLives| && i != b.currentBlueIndex ==> r.blueLives[i] == b.blueLives[i]) &&
         r.redWins == b.redWins
       else
         r.redWins && r.currentBlueIndex == b.currentBlueIndex && r.blueLives == b.blueLives)
  {
    if b.currentBlueIndex < |b.blueLives| {
      assert LoseBlueLife(b) == b.(blueLives := b.blueLives[b.currentBlueIndex := false], currentBlueIndex := b.currentBlueIndex + 1);
    } else {
      assert LoseBlueLife(b) == b.(redWins := true);
    }
  }

  /**
   * CheckWin latches `restart` exactly when a side has won (or it was
   * already latched), shows the red panel exactly when red won (or it was
   * shown) and the blue panel exactly when blue alone won (or it was
   * shown); it changes no lives and no index.
   */
  lemma CheckWinLatches(b: Board)
    ensures var r := CheckWin(b);
      (r.restart <==> b.restart || b.redWins || b.blueWins) &&
      (b.redWins || b.blueWins ==> r.restart && r.restartButtonShown) &&
      (r.redWinsPanelShown <==> b.redWinsPanelShown || b.redWins) &&
      (r.blueWinsPanelShown <==> b.blueWinsPanelShown || (b.blueWins && !b.redWins)) &&
      (!b.redWins && !b.blueWins ==> r == b) &&
      RedSide(r) == RedSide(b) && BlueSide(r) == BlueSide(b)
  {
  }

  /** RestartGame does nothing unless `restart` is latched, and otherwise yields a fresh board of the same size. */
  lemma RestartGameResets(b: Board)
    ensures var r := RestartGame(b);
      (!b.restart ==> r == b) &&
      (b.restart ==> Fresh(r) && |r.redLives| == |b.redLives| && |r.blueLives| == |b.blueLives|)
  {
  }

  /** A second immediate RestartGame changes nothing. */
  lemma RestartGameIdempotent(b: Board)
    ensures RestartGame(RestartGame(b)) == RestartGame(b)
  {
  }

  /** A fresh board satisfies the lives/index correspondence. */
  lemma FreshMatches(b: Board)
    requires Fresh(b)
    ensures LivesMatchIndices(b)
  {
  }

  /** Each operation keeps the index bounds, from any bounded board. */
  lemma OperationsKeepBounds(b: Board)
    requires Bounded(b)
    ensures Bounded(LoseRedLife(b)) && Bounded(LoseBlueLife(b))
    ensures Bounded(CheckWin(b)) && Bounded(RestartGame(b))
  {
    LoseRedLifeEffect(b);
    LoseBlueLifeEffect(b);
    CheckWinLatches(b);
    RestartGameResets(b);
  }

  /** The events that drive LifeManager. */
  datatype Event = RedLosesLife | BlueLosesLife | Frame | RestartPressed

  function Apply(b: Board, e: Event): Board {
    match e
    case RedLosesLife => LoseRedLife(b)
    case BlueLosesLife => LoseBlueLife(b)
    case Frame => CheckWin(b)
    case RestartPressed => RestartGame(b)
  }

  function Run(b: Board, events: seq<Event>): Board
    decreases |events|
  {
    if events == [] then b else Run(Apply(b, events[0]), events[1..])
  }

  /** One event keeps "life i is hidden iff i is below the index" on both sides. */
  lemma ApplyKeepsLivesMatch(b: Board, e: Event)
    requires LivesMatchIndices(b)
    ensures LivesMatchIndices(Apply(b, e))
  {
    match e
    case RedLosesLife => LoseRedLifeEffect(b);
    case BlueLosesLife => LoseBlueLifeEffect(b);
    case Frame =>
    case RestartPressed => RestartGameResets(b);
  }

  /**
   * Starting from a board whose lives match the indices (a fresh one, say),
   * every sequence of losses, frames and restarts keeps them matched.
   */
  lemma {:induction false} RunKeepsLivesMatch(b: Board, events: seq<Event>)
    requires LivesMatchIndices(b)
    ensures LivesMatchIndices(Run(b, events))
    decreases |events|
  {
    if events != [] {
      ApplyKeepsLivesMatch(b, events[0]);
      RunKeepsLivesMatch(Apply(b, events[0]), events[1..]);
    }
  }

  function RedHits(b: Board, k: nat): Board {
    if k == 0 then b else LoseRedLife(RedHits(b, k - 1))
  }

  function BlueHits(b: Board, k: nat): Board {
    if k == 0 then b else LoseBlueLife(BlueHits(b, k - 1))
  }

  /** From a fresh board, the first k < n red hits hide lives 0..k-1 and declare no winner. */
  lemma {:induction false} RedHitsCount(b: Board, k: nat)
    requires Fresh(b) && k < |b.redLives|
    ensures var r := RedHits(b, k);
      r.currentRedIndex == k && !r.blueWins && !r.redWins && LivesMatchIndices(r) && |r.redLives| == |b.redLives|
  {
    FreshMatches(b);
    if k > 0 {
      RedHitsCount(b, k - 1);
      var p := RedHits(b, k - 1);
      LoseRedLifeEffect(p);
      ApplyKeepsLivesMatch(p, RedLosesLife);
    }
  }

  /** From a fresh board, the first k <= n blue hits hide lives 0..k-1 and declare no winner. */
  lemma {:induction false} BlueHitsCount(b: Board, k: nat)
    requires Fresh(b) && k <= |b.blueLives|
    ensures var r := BlueHits(b, k);
      r.currentBlueIndex == k && !r.redWins && !r.blueWins && LivesMatchIndices(r) && |r.blueLives| == |b.blueLives|
  {
    FreshMatches(b);
    if k > 0 {
      BlueHitsCount(b, k - 1);
      var p := BlueHits(b, k - 1);
      LoseBlueLifeEffect(p);
      ApplyKeepsLivesMatch(p, BlueLosesLife);
    }
  }

  /**
   * With n >= 1 red lives, blue wins on exactly the n-th red hit, and the
   * last red life object is still shown at that moment.
   */
  lemma RedLosesOnNthHit(b: Board)
    requires Fresh(b) && |b.redLives| >= 1
    ensures !RedHits(b, |b.redLives| - 1).blueWins
    ensures RedHits(b, |b.redLives|).blueWins
    ensures |RedHits(b, |b.redLives|).redLives| == |b.redLives|
    ensures RedHits(b, |b.redLives|).redLives[|b.redLives| - 1]
  {
    var n := |b.redLives|;
    RedHitsCount(b, n - 1);
    LoseRedLifeEffect(RedHits(b, n - 1));
  }

  /**
   * With n blue lives, the n-th blue hit hides the last one without a
   * winner; red wins only on hit n + 1.
   */
  lemma BlueLosesOnNPlusFirstHit(b: Board)
    requires Fresh(b)
    ensures var n := |b.blueLives|;
      !BlueHits(b, n).redWins &&
      |BlueHits(b, n).blueLives| == n &&
      (forall i :: 0 <= i < n ==> !BlueHits(b, n).blueLives[i]) &&
      BlueHits(b, n + 1).redWins
  {
    var n := |b.blueLives|;
    BlueHitsCount(b, n);
    LoseBlueLifeEffect(BlueHits(b, n));
  }
}

/** The component itself, whose methods are specified by the functions of LifeRules. */
module LifeComponent {
  import opened LifeRules

  /**
   * The LifeManager component: two arrays of life objects (their active
   * flags), the two indices, the win flags, the restart latch and the
   * visibility of the two win panels and the restart button.
   */
  class LifeManager {
    var redLives: array<bool>
    var blueLives: array<bool>
    var currentRedIndex: nat
    var redWins: bool
    var currentBlueIndex: nat
    var blueWins: bool
    var restart: bool
    var redWinsPanelShown: bool
    var blueWinsPanelShown: bool
    var restartButtonShown: bool

    /** The two teams' rows are different arrays. */
    ghost predicate Valid()
      reads this
    {
      redLives != blueLives
    }

    ghost function Model(): Board
      reads this, redLives, blueLives
    {
      Board(redLives[..], currentRedIndex, redWins, blueLives[..], currentBlueIndex, blueWins,
            restart, redWinsPanelShown, blueWinsPanelShown, restartButtonShown)
    }

    /**
     * The field initialisers (indices 0, no wins, no latch); the scene
     * supplies the rows and how the two panels and the button start out.
     */
    constructor (red: array<bool>, blue: array<bool>, redPanelShown: bool, bluePanelShown: bool, buttonShown: bool)
      requires red != blue
      ensures Valid() && redLives == red && blueLives == blue
      ensures Model() == Board(red[..], 0, false, blue[..], 0, false, false, redPanelShown, bluePanelShown, buttonShown)
    {
      redLives, blueLives := red, blue;
      currentRedIndex, redWins := 0, false;
      currentBlueIndex, blueWins := 0, false;
      restart := false;
      redWinsPanelShown, blueWinsPanelShown, restartButtonShown := redPanelShown, bluePanelShown, buttonShown;
    }

    method LoseRedLife()
      requires Valid()
      modifies redLives, this`currentRedIndex, this`blueWins
      ensures Valid()
      ensures Model() == LifeRules.LoseRedLife(old(Model()))
    {
      if currentRedIndex < redLives.Length - 1 {
        redLives[currentRedIndex] := false;
        currentRedIndex := currentRedIndex + 1;
      } else {
        blueWins := true;
      }
    }

    method LoseBlueLife()
      requires Valid()
      modifies blueLives, this`currentBlueIndex, this`redWins
      ensures Valid()
      ensures Model() == LifeRules.LoseBlueLife(old(Model()))
    {
      if currentBlueIndex < blueLives.Length {
        blueLives[currentBlueIndex] := false;
        currentBlueIndex := currentBlueIndex + 1;
      } else {
        redWins := true;
      }
    }

    method CheckWin()
      requires Valid()
      modifies this`redWinsPanelShown, this`blueWinsPanelShown, this`restartButtonShown, this`restart
      ensures Valid()
      ensures Model() == LifeRules.CheckWin(old(Model()))
    {
      if redWins || blueWins {
        if redWins {
          redWinsPanelShown := true;
        } else if blueWins {
          blueWinsPanelShown := true;
        }
        restartButtonShown := true;
        restart := true;
      }
    }

    /** Unity's per-frame callback. */
    method Update()
      requires Valid()
      modifies this`redWinsPanelShown, this`blueWinsPanelShown, this`restartButtonShown, this`restart
      ensures Valid()
      ensures Model() == LifeRules.CheckWin(old(Model()))
    {
      CheckWin();
    }

    method RestartGame()
      requires Valid()
      modifies redLives, blueLives
      modifies this`redWins, this`blueWins, this`currentRedIndex, this`currentBlueIndex
      modifies this`redWinsPanelShown, this`blueWinsPanelShown, this`restartButtonShown, this`restart
      ensures Valid()
      ensures Model() == LifeRules.RestartGame(old(Model()))
    {
      if restart {
        redWins := false;
        blueWins := false;
        currentRedIndex := 0;
        currentBlueIndex := 0;
        redWinsPanelShown := false;
        blueWinsPanelShown := false;
        restartButtonShown := false;
        ShowAll(redLives);
        ShowAll(blueLives);
        restart := false;
      }
    }

    /** The `foreach` of RestartGame over one row: every life object is set active again. */
    static method ShowAll(lives: array<bool>)
      modifies lives
      ensures lives[..] == AllActive(lives.Length)
    {
      for i := 0 to lives.Length
        invariant forall j :: 0 <= j < i ==> lives[j]
      {
        lives[i] := true;
      }
    }
  }
}
