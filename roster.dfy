/**
 * The roster of a poker session: players, their buy-ins and final chip counts,
 * the pure roster updates behind the add-player, add-buy-in and finalize
 * handlers, and the chip conservation gate.
 */
module Roster {
  import opened Wrappers

  /**
   * The text of a numeric input field. `Blank` is the empty string (falsy);
   * `Typed(Some(n))` is text that parses to `n`; `Typed(None)` is non-empty
   * text that does not parse.
   */
  datatype Entry<T> = Blank | Typed(parsed: Option<T>)

  /** `parseInt(text) || 0`: blank or unparsable text counts as 0. */
  function IntOrZero(e: Entry<nat>): (n: nat)
    ensures e.Typed? && e.parsed.Some? ==> n == e.parsed.value
    ensures n != 0 ==> e == Typed(Some(n))
  {
    match e
    case Typed(Some(n)) => n
    case _ => 0
  }

  /** Looking up a field keyed by player name; an absent key reads as blank text. */
  function Lookup(m: map<string, Entry<nat>>, name: string): (e: Entry<nat>)
    ensures name in m ==> e == m[name]
    ensures e != Blank ==> name in m
  {
    if name in m then m[name] else Blank
  }

  /** A player: `chips` is absent until the session is finalized. */
  datatype Player = Player(name: string, buyins: nat, chips: Option<nat>)

  function Chips(p: Player): nat {
    p.chips.GetOr(0)
  }

  /** Every player has a final chip count. */
  predicate Counted(ps: seq<Player>) {
    forall k :: 0 <= k < |ps| ==> ps[k].chips.Some?
  }

  function TotalBuyins(ps: seq<Player>): nat {
    if ps == [] then 0 else ps[0].buyins + TotalBuyins(ps[1..])
  }

  function TotalChips(ps: seq<Player>): nat {
    if ps == [] then 0 else Chips(ps[0]) + TotalChips(ps[1..])
  }

  /** The number of players called `name` (the roster does not enforce unique names). */
  function Occurrences(ps: seq<Player>, name: string): nat {
    if ps == [] then 0 else (if ps[0].name == name then 1 else 0) + Occurrences(ps[1..], name)
  }

  /**
   * Adding a player: when both the name and the initial buy-in field are
   * non-empty, exactly one new player is appended, with that name, the parsed
   * buy-in and no chips; otherwise the roster is unchanged.
   */
  function AddPlayer(ps: seq<Player>, name: string, initial: Entry<nat>): (r: seq<Player>)
    ensures name != "" && initial.Typed? ==>
      |r| == |ps| + 1 && r[..|ps|] == ps && r[|ps|] == Player(name, IntOrZero(initial), None)
    ensures name == "" || initial.Blank? ==> r == ps
  {
    if name != "" && initial.Typed? then ps + [Player(name, IntOrZero(initial), None)] else ps
  }

  /**
   * Adding `amount` to the buy-ins of every player called `name`: the roster
   * keeps its length, order, names and chips, and nobody else changes.
   */
  function AddBuyin(ps: seq<Player>, name: string, amount: nat): (r: seq<Player>)
    ensures |r| == |ps|
    ensures forall k :: 0 <= k < |ps| ==>
      r[k].name == ps[k].name && r[k].chips == ps[k].chips &&
      r[k].buyins == ps[k].buyins + (if ps[k].name == name then amount else 0)
    ensures forall k :: 0 <= k < |ps| && ps[k].name != name ==> r[k] == ps[k]
  {
    if ps == [] then []
    else
      var p := ps[0];
      [if p.name == name then p.(buyins := p.buyins + amount) else p] + AddBuyin(ps[1..], name, amount)
  }

  /**
   * Filling in the final chip counts from the remaining-chips fields: every
   * player keeps name and buy-ins and gets the parsed count, 0 when the field
   * is missing, blank or unparsable.
   */
  function WithChips(ps: seq<Player>, remaining: map<string, Entry<nat>>): (r: seq<Player>)
    ensures |r| == |ps| && Counted(r)
    ensures forall k :: 0 <= k < |ps| ==>
      r[k].name == ps[k].name && r[k].buyins == ps[k].buyins &&
      r[k].chips == Some(IntOrZero(Lookup(remaining, ps[k].name)))
    ensures forall k :: 0 <= k < |ps| && ps[k].name !in remaining ==> r[k].chips == Some(0)
  {
    if ps == [] then []
    else
      [ps[0].(chips := Some(IntOrZero(Lookup(remaining, ps[0].name))))] + WithChips(ps[1..], remaining)
  }

  datatype Direction = Missing | Extra

  /** The outcome of the conservation gate. */
  datatype Balance = Balanced | Mismatch(direction: Direction, difference: nat)

  /**
   * The conservation gate: balanced exactly when the chips bought equal the
   * chips counted; otherwise the difference and whether chips are missing or
   * extra, which together account for the gap between the two totals.
   */
  function Conservation(ps: seq<Player>): (b: Balance)
    ensures b.Balanced? <==> TotalBuyins(ps) == TotalChips(ps)
    ensures b.Mismatch? ==> b.difference > 0
    ensures b.Mismatch? ==> (b.direction == Missing <==> TotalBuyins(ps) > TotalChips(ps))
    ensures b.Mismatch? && b.direction == Missing ==> TotalBuyins(ps) == TotalChips(ps) + b.difference
    ensures b.Mismatch? && b.direction == Extra ==> TotalChips(ps) == TotalBuyins(ps) + b.difference
  {
    var bought, counted := TotalBuyins(ps), TotalChips(ps);
    if bought == counted then Balanced
    else if bought > counted then Mismatch(Missing, bought - counted)
    else Mismatch(Extra, counted - bought)
  }

  /** Appending a player adds its buy-ins to the total. */
  lemma {:induction false} TotalBuyinsAppend(ps: seq<Player>, p: Player)
    ensures TotalBuyins(ps + [p]) == TotalBuyins(ps) + p.buyins
  {
    if ps != [] {
      assert (ps + [p])[1..] == ps[1..] + [p];
      TotalBuyinsAppend(ps[1..], p);
    }
  }

  /** Adding a player raises the total buy-in by exactly the parsed initial buy-in. */
  lemma AddPlayerTotal(ps: seq<Player>, name: string, initial: Entry<nat>)
    requires name != "" && initial.Typed?
    ensures TotalBuyins(AddPlayer(ps, name, initial)) == TotalBuyins(ps) + IntOrZero(initial)
  {
    TotalBuyinsAppend(ps, Player(name, IntOrZero(initial), None));
  }

  lemma MulAddOne(a: nat, b: nat)
    ensures a * (1 + b) == a + a * b
  {
  }

  /** A buy-in raises the total buy-in by the amount once per player with that name. */
  lemma {:induction false} AddBuyinTotal(ps: seq<Player>, name: string, amount: nat)
    ensures TotalBuyins(AddBuyin(ps, name, amount)) == TotalBuyins(ps) + amount * Occurrences(ps, name)
  {
    if ps != [] {
      var r, rest := AddBuyin(ps, name, amount), AddBuyin(ps[1..], name, amount);
      assert TotalBuyins(r) == r[0].buyins + TotalBuyins(rest) by {
        assert r[1..] == rest;
      }
      AddBuyinTotal(ps[1..], name, amount);
      MulAddOne(amount, Occurrences(ps[1..], name));
    }
  }

  /** A buy-in does not touch anybody's chips. */
  lemma {:induction false} AddBuyinChips(ps: seq<Player>, name: string, amount: nat)
    ensures TotalChips(AddBuyin(ps, name, amount)) == TotalChips(ps)
  {
    if ps != [] {
      AddBuyinChips(ps[1..], name, amount);
    }
  }

  /** Filling in the chip counts keeps the total buy-in. */
  lemma {:induction false} WithChipsBuyins(ps: seq<Player>, remaining: map<string, Entry<nat>>)
    ensures TotalBuyins(WithChips(ps, remaining)) == TotalBuyins(ps)
  {
    if ps != [] {
      WithChipsBuyins(ps[1..], remaining);
    }
  }
}
