/**
 * Cash conversion at the end of a session: each player's final chips are
 * valued at the session's chip value (total buy-in over total chips) and
 * converted to money at the conversion rate.
 */
module Cash {
  import opened Wrappers
  import opened Roster

  /** One row of the results table. */
  datatype CashResult = CashResult(name: string, buyinChips: nat, cashOutChips: real, cashOutMoney: real)

  /** `parseFloat(percent) / 100`; blank or unparsable text gives rate 0. */
  function PercentRate(e: Entry<real>): (rate: real)
    ensures e.Typed? && e.parsed.Some? ==> rate * 100.0 == e.parsed.value
    ensures rate != 0.0 ==> e.Typed? && e.parsed.Some?
  {
    match e
    case Typed(Some(x)) => x / 100.0
    case _ => 0.0
  }

  /**
   * The value of one final chip, in chips bought: total buy-in over total
   * chips. It is 1 once the conservation gate has passed.
   */
  function ChipValue(ps: seq<Player>): (v: real)
    requires TotalChips(ps) > 0
    ensures v >= 0.0
    ensures Conservation(ps).Balanced? ==> v == 1.0
  {
    var bought, counted := TotalBuyins(ps) as real, TotalChips(ps) as real;
    assert counted > 0.0;
    assert counted / counted == 1.0;
    bought / counted
  }

  /** The chip value prices all the chips counted at exactly the chips bought. */
  lemma ChipValuePrices(ps: seq<Player>)
    requires TotalChips(ps) > 0
    ensures ChipValue(ps) * TotalChips(ps) as real == TotalBuyins(ps) as real
  {
    var bought, counted := TotalBuyins(ps) as real, TotalChips(ps) as real;
    assert (bought / counted) * counted == bought;
  }

  /**
   * One player's row at a given chip value: name and buy-in copied, the final
   * chips valued at `chipValue`, and that value converted to money at `rate`.
   */
  function Row(p: Player, chipValue: real, rate: real): CashResult {
    var cashOutChips := Chips(p) as real * chipValue;
    CashResult(p.name, p.buyins, cashOutChips, cashOutChips * rate)
  }

  /** The rows for a roster at a given chip value: one per player, in roster order. */
  function Convert(ps: seq<Player>, chipValue: real, rate: real): (rs: seq<CashResult>)
    ensures |rs| == |ps|
    ensures forall k :: 0 <= k < |ps| ==> rs[k] == Row(ps[k], chipValue, rate)
  {
    if ps == [] then []
    else [Row(ps[0], chipValue, rate)] + Convert(ps[1..], chipValue, rate)
  }

  /** The results table of a finalized roster: every player's row at the session's own chip value. */
  function CashResults(ps: seq<Player>, rate: real): (rs: seq<CashResult>)
    requires TotalChips(ps) > 0
    ensures |rs| == |ps|
    ensures forall k :: 0 <= k < |ps| ==> rs[k] == Row(ps[k], ChipValue(ps), rate)
  {
    Convert(ps, ChipValue(ps), rate)
  }

  function SumCashOutChips(rs: seq<CashResult>): real {
    if rs == [] then 0.0 else rs[0].cashOutChips + SumCashOutChips(rs[1..])
  }

  /** Valuing every chip at `chipValue` values the whole roster at `chipValue` times its chips. */
  lemma {:induction false} ConvertSum(ps: seq<Player>, chipValue: real, rate: real)
    ensures SumCashOutChips(Convert(ps, chipValue, rate)) == chipValue * TotalChips(ps) as real
  {
    if ps != [] {
      ConvertSum(ps[1..], chipValue, rate);
    }
  }

  /** The results table values all the chips counted at the session's chip value. */
  lemma CashResultsSum(ps: seq<Player>, rate: real)
    requires TotalChips(ps) > 0
    ensures SumCashOutChips(CashResults(ps, rate)) == ChipValue(ps) * TotalChips(ps) as real
  {
    ConvertSum(ps, ChipValue(ps), rate);
  }

  /** The chips cashed out add up to exactly the chips bought. */
  lemma CashOutConserves(ps: seq<Player>, rate: real)
    requires TotalChips(ps) > 0
    ensures SumCashOutChips(CashResults(ps, rate)) == TotalBuyins(ps) as real
  {
    CashResultsSum(ps, rate);
    ChipValuePrices(ps);
  }

  /** Past the conservation gate, every player cashes out exactly its own chips. */
  lemma CashOutAfterGate(ps: seq<Player>, rate: real)
    requires TotalChips(ps) > 0 && Conservation(ps).Balanced?
    ensures forall k :: 0 <= k < |ps| ==> CashResults(ps, rate)[k].cashOutChips == Chips(ps[k]) as real
    ensures forall k :: 0 <= k < |ps| ==> CashResults(ps, rate)[k].cashOutMoney == Chips(ps[k]) as real * rate
  {
  }
}
