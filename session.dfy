/**
 * The session screen: the state the handlers replace (game state, roster,
 * input fields, results, settlements, error) and the handlers themselves.
 * Each handler requires the game state whose screen shows its control.
 */
module Session {
  import opened Wrappers
  import opened Roster
  import opened Cash
  import opened Settlement

  /** The four screens of a session, in the order a session moves through them. */
  datatype GameState = Setup | Playing | EnteringChips | Ended

  /** The messages the error banner can show. */
  datatype Error =
    | MissingPlayerFields
    | IncompleteSetup
    | ChipMismatch(direction: Direction, difference: nat)

  /** Every field of the session, for stating what a handler changes. */
  datatype State = State(
    gameState: GameState,
    conversionPercent: Entry<real>,
    initialBuyin: Entry<nat>,
    players: seq<Player>,
    currentPlayer: string,
    buyinAmounts: map<string, Entry<nat>>,
    results: seq<CashResult>,
    settlements: seq<Transfer>,
    remainingChips: map<string, Entry<nat>>,
    error: Option<Error>)

  /** No player has a final chip count yet. */
  predicate Uncounted(ps: seq<Player>) {
    forall k :: 0 <= k < |ps| ==> ps[k].chips.None?
  }

  function NameSet(ps: seq<Player>): set<string> {
    set k | 0 <= k < |ps| :: ps[k].name
  }

  /** The results table of a finalized roster; empty when no chips were counted at all. */
  function ResultsOf(ps: seq<Player>, rate: real): (rs: seq<CashResult>)
    ensures TotalChips(ps) > 0 ==> |rs| == |ps|
    ensures TotalChips(ps) == 0 ==> rs == []
    ensures forall k :: 0 <= k < |rs| ==>
      rs[k].name == ps[k].name && rs[k].buyinChips == ps[k].buyins
        && rs[k].cashOutMoney == rs[k].cashOutChips * rate
    ensures TotalChips(ps) > 0 ==> forall k :: 0 <= k < |rs| ==> rs[k] == Row(ps[k], ChipValue(ps), rate)
  {
    if TotalChips(ps) > 0 then CashResults(ps, rate) else []
  }

  /** The settlement list of a finalized roster; empty when no chips were counted at all. */
  function SettlementsOf(ps: seq<Player>, rate: real): (ts: seq<Transfer>)
    ensures ts != [] ==> |ts| < |ps|
    ensures forall m :: 0 <= m < |ts| ==> ts[m].amount > 0.0
  {
    if TotalChips(ps) > 0 then Schedule(ps, rate, EXACT_TOLERANCE) else []
  }

  class Game {
    var gameState: GameState
    var conversionPercent: Entry<real>
    var initialBuyin: Entry<nat>
    var players: seq<Player>
    var currentPlayer: string
    var buyinAmounts: map<string, Entry<nat>>
    var results: seq<CashResult>
    var settlements: seq<Transfer>
    var remainingChips: map<string, Entry<nat>>
    var error: Option<Error>

    ghost function Snapshot(): State
      reads this
    {
      State(gameState, conversionPercent, initialBuyin, players, currentPlayer,
            buyinAmounts, results, settlements, remainingChips, error)
    }

    /** The conversion rate: the percent field over 100. */
    function Rate(): real
      reads this
    {
      PercentRate(conversionPercent)
    }

    /**
     * The session invariant: play starts only with the setup fields filled
     * and at least two players; chip counts, results and settlements exist
     * only once the session has ended, and an ended session has passed the
     * conservation gate and shows the results and settlements of its roster.
     */
    ghost predicate Valid()
      reads this
      ensures Valid() && gameState == Ended ==>
        (results == [] || |results| == |players|) && (settlements == [] || |settlements| < |players|)
    {
      && (gameState != Setup ==> |players| >= 2 && conversionPercent.Typed? && initialBuyin.Typed?)
      && (gameState != Ended ==> Uncounted(players) && results == [] && settlements == [])
      && (gameState == Ended ==>
            && Counted(players) && Conservation(players).Balanced?
            && results == ResultsOf(players, Rate())
            && settlements == SettlementsOf(players, Rate()))
    }

    /** A new session: the setup screen, every field empty, no players. */
    constructor ()
      ensures Valid()
      ensures Snapshot() == State(Setup, Blank, Blank, [], "", map[], [], [], map[], None)
    {
      gameState := Setup;
      conversionPercent := Blank;
      initialBuyin := Blank;
      players := [];
      currentPlayer := "";
      buyinAmounts := map[];
      results := [];
      settlements := [];
      remainingChips := map[];
      error := None;
    }

    method SetConversionPercent(e: Entry<real>)
      requires Valid() && gameState == Setup
      modifies this
      ensures Valid()
      ensures Snapshot() == old(Snapshot()).(conversionPercent := e)
    {
      conversionPercent := e;
    }

    method SetInitialBuyin(e: Entry<nat>)
      requires Valid() && gameState == Setup
      modifies this
      ensures Valid()
      ensures Snapshot() == old(Snapshot()).(initialBuyin := e)
    {
      initialBuyin := e;
    }

    method SetCurrentPlayer(name: string)
      requires Valid() && gameState == Setup
      modifies this
      ensures Valid()
      ensures Snapshot() == old(Snapshot()).(currentPlayer := name)
    {
      currentPlayer := name;
    }

    /**
     * With a name and an initial buy-in entered, appends the player, clears
     * its buy-in field and the name field; otherwise only sets the error.
     */
    method AddPlayer()
      requires Valid() && gameState == Setup
      modifies this
      ensures Valid()
      ensures old(currentPlayer) != "" && old(initialBuyin).Typed? ==>
        Snapshot() == old(Snapshot()).(
          players := Roster.AddPlayer(old(players), old(currentPlayer), old(initialBuyin)),
          buyinAmounts := old(buyinAmounts)[old(currentPlayer) := Blank],
          currentPlayer := "")
      ensures old(currentPlayer) == "" || old(initialBuyin).Blank? ==>
        Snapshot() == old(Snapshot()).(error := Some(MissingPlayerFields))
    {
      if currentPlayer != "" && initialBuyin.Typed? {
        players := Roster.AddPlayer(players, currentPlayer, initialBuyin);
        buyinAmounts := buyinAmounts[currentPlayer := Blank];
        currentPlayer := "";
      } else {
        error := Some(MissingPlayerFields);
      }
    }

    /** Leaves setup for play only with both setup fields filled and at least two players. */
    method StartGame()
      requires Valid() && gameState == Setup
      modifies this
      ensures Valid()
      ensures gameState == Playing <==> old(conversionPercent).Typed? && old(initialBuyin).Typed? && |old(players)| >= 2
      ensures gameState == Playing ==> Snapshot() == old(Snapshot()).(gameState := Playing)
      ensures gameState != Playing ==> Snapshot() == old(Snapshot()).(error := Some(IncompleteSetup))
    {
      if conversionPercent.Typed? && initialBuyin.Typed? && |players| > 1 {
        gameState := Playing;
      } else {
        error := Some(IncompleteSetup);
      }
    }

    method HandleBuyinAmountChange(name: string, e: Entry<nat>)
      requires Valid() && gameState == Playing
      modifies this
      ensures Valid()
      ensures Snapshot() == old(Snapshot()).(buyinAmounts := old(buyinAmounts)[name := e])
    {
      buyinAmounts := buyinAmounts[name := e];
    }

    /**
     * Adds the parsed amount of the player's buy-in field (0 when blank,
     * unparsable or missing) to the players with that name, and clears the
     * field.
     */
    method AddBuyin(name: string)
      requires Valid() && gameState == Playing
      modifies this
      ensures Valid()
      ensures Snapshot() == old(Snapshot()).(
        players := Roster.AddBuyin(old(players), name, IntOrZero(Lookup(old(buyinAmounts), name))),
        buyinAmounts := old(buyinAmounts)[name := Blank])
    {
      var amount := IntOrZero(Lookup(buyinAmounts, name));
      players := Roster.AddBuyin(players, name, amount);
      buyinAmounts := buyinAmounts[name := Blank];
    }

    /** Moves to chip entry with a blank remaining-chips field for every player. */
    method EndGame()
      requires Valid() && gameState == Playing
      modifies this
      ensures Valid()
      ensures Snapshot() == old(Snapshot()).(
        gameState := EnteringChips,
        remainingChips := map n | n in NameSet(old(players)) :: Blank)
    {
      gameState := EnteringChips;
      remainingChips := map n | n in NameSet(players) :: Blank;
    }

    method HandleRemainingChipsChange(name: string, e: Entry<nat>)
      requires Valid() && gameState == EnteringChips
      modifies this
      ensures Valid()
      ensures Snapshot() == old(Snapshot()).(remainingChips := old(remainingChips)[name := e])
    {
      remainingChips := remainingChips[name := e];
    }

    /**
     * The conservation gate: on a mismatch only the error changes, carrying
     * the direction and the difference; otherwise the roster gets its chip
     * counts, the results and settlements are computed and the session ends.
     */
    method FinalizeGame()
      requires Valid() && gameState == EnteringChips
      modifies this
      ensures Valid()
      ensures var updated := WithChips(old(players), old(remainingChips));
        var balance := Conservation(updated);
        balance.Mismatch? ==>
          Snapshot() == old(Snapshot()).(error := Some(ChipMismatch(balance.direction, balance.difference)))
      ensures var updated := WithChips(old(players), old(remainingChips));
        Conservation(updated).Balanced? ==>
          Snapshot() == old(Snapshot()).(
            error := None, players := updated, gameState := Ended,
            results := ResultsOf(updated, old(Rate())),
            settlements := SettlementsOf(updated, old(Rate())))
    {
      var updated := WithChips(players, remainingChips);
      var balance := Conservation(updated);
      if balance.Mismatch? {
        error := Some(ChipMismatch(balance.direction, balance.difference));
        return;
      }
      error := None;
      players := updated;
      CalculateResults(updated);
      gameState := Ended;
    }

    /**
     * Records the results table of `finalPlayers` and its settlements. A
     * roster with no chips at all gets neither.
     */
    method CalculateResults(finalPlayers: seq<Player>)
      modifies this
      ensures Snapshot() == old(Snapshot()).(
        results := ResultsOf(finalPlayers, old(Rate())),
        settlements := SettlementsOf(finalPlayers, old(Rate())))
    {
      var rate := Rate();
      var rs: seq<CashResult>, ts: seq<Transfer> := [], [];
      if TotalChips(finalPlayers) > 0 {
        rs := CashResults(finalPlayers, rate);
        ts := SimplifySettlements(rs, rate, EXACT_TOLERANCE);
      }
      assert rs == ResultsOf(finalPlayers, rate) && ts == SettlementsOf(finalPlayers, rate);
      results, settlements := rs, ts;
    }
  }
}
