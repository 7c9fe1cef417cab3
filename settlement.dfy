/**
 * Settlement of a finalized session: each player's net position in money,
 * the split into payers and receivers, and the greedy two-cursor matcher that
 * turns those positions into payer-to-receiver transfers.
 */
module Settlement {
  import opened Wrappers
  import opened Roster
  import opened Cash

  /** A player's name and net position: negative owes money, positive is owed money. */
  datatype Position = Position(name: string, net: real)

  /** One payment of the settlement schedule. */
  datatype Transfer = Transfer(payer: string, receiver: string, amount: real)

  /** The advance threshold of the matcher as written: a position under one cent counts as settled. */
  const CENT_TOLERANCE: real := 0.01

  /** The advance threshold of the corrected matcher: only an exactly zero position counts as settled. */
  const EXACT_TOLERANCE: real := 0.0

  /**
   * The net position of every results row, in order:
   * `cashOutMoney - buyinChips * rate`.
   */
  function Nets(rs: seq<CashResult>, rate: real): (ns: seq<Position>)
    ensures |ns| == |rs|
    ensures forall k :: 0 <= k < |rs| ==>
      ns[k].name == rs[k].name && ns[k].net == rs[k].cashOutMoney - rs[k].buyinChips as real * rate
  {
    if rs == [] then []
    else [Position(rs[0].name, rs[0].cashOutMoney - rs[0].buyinChips as real * rate)] + Nets(rs[1..], rate)
  }

  function NetSum(ns: seq<Position>): real {
    if ns == [] then 0.0 else ns[0].net + NetSum(ns[1..])
  }

  /** The number of positions held under `name`. */
  function NameCount(ns: seq<Position>, name: string): nat {
    if ns == [] then 0 else (if ns[0].name == name then 1 else 0) + NameCount(ns[1..], name)
  }

  /** The number of zero positions held under `name`. */
  function ZeroCount(ns: seq<Position>, name: string): nat {
    if ns == [] then 0 else (if ns[0].name == name && ns[0].net == 0.0 then 1 else 0) + ZeroCount(ns[1..], name)
  }

  predicate AllNegative(ns: seq<Position>) {
    forall k :: 0 <= k < |ns| ==> ns[k].net < 0.0
  }

  predicate AllPositive(ns: seq<Position>) {
    forall k :: 0 <= k < |ns| ==> ns[k].net > 0.0
  }

  lemma HeadTail(s: seq<Position>)
    requires s != []
    ensures multiset(s) == multiset{s[0]} + multiset(s[1..])
  {
    assert s == [s[0]] + s[1..];
  }

  // ---------------------------------------------------------------------------
  // Net positions of a finalized roster

  /** Names and nets of a roster converted at chip value 1, the value past the gate. */
  lemma {:induction false} ConvertNets(ps: seq<Player>, rate: real, n: string)
    ensures NetSum(Nets(Convert(ps, 1.0, rate), rate)) == (TotalChips(ps) as real - TotalBuyins(ps) as real) * rate
    ensures NameCount(Nets(Convert(ps, 1.0, rate), rate), n) == Occurrences(ps, n)
  {
    if ps != [] {
      var rs, tail := Convert(ps, 1.0, rate), Convert(ps[1..], 1.0, rate);
      assert Nets(rs, rate) == [Nets(rs, rate)[0]] + Nets(tail, rate) by {
        assert rs[1..] == tail;
        assert Nets(rs, rate)[1..] == Nets(tail, rate);
      }
      ConvertNets(ps[1..], rate, n);
    }
  }

  /** A player's chip gain or loss, in money: the net position the session owes it. */
  function Gain(p: Player, rate: real): Position {
    Position(p.name, (Chips(p) as real - p.buyins as real) * rate)
  }

  /** The arithmetic of one row at chip value 1. */
  lemma RowNet(chips: real, buyins: real, rate: real)
    ensures (chips * 1.0) * rate - buyins * rate == (chips - buyins) * rate
  {
  }

  /** At chip value 1, the first player's net position is its chip gain. */
  lemma ConvertNetHead(ps: seq<Player>, rate: real)
    requires ps != []
    ensures Nets(Convert(ps, 1.0, rate), rate)[0] == Gain(ps[0], rate)
  {
    var c, b := Chips(ps[0]) as real, ps[0].buyins as real;
    assert Convert(ps, 1.0, rate)[0] == CashResult(ps[0].name, ps[0].buyins, c * 1.0, (c * 1.0) * rate);
    RowNet(c, b, rate);
  }

  /** At chip value 1, every player's net position is its chip gain. */
  lemma {:induction false} ConvertNetAt(ps: seq<Player>, rate: real, k: nat)
    requires k < |ps|
    ensures Nets(Convert(ps, 1.0, rate), rate)[k] == Gain(ps[k], rate)
  {
    if k == 0 {
      ConvertNetHead(ps, rate);
    } else {
      assert Nets(Convert(ps, 1.0, rate), rate)[k] == Nets(Convert(ps[1..], 1.0, rate), rate)[k - 1] by {
        var rs, tail := Convert(ps, 1.0, rate), Convert(ps[1..], 1.0, rate);
        assert rs[1..] == tail;
        assert Nets(rs, rate)[1..] == Nets(tail, rate);
      }
      ConvertNetAt(ps[1..], rate, k - 1);
      assert ps[1..][k - 1] == ps[k];
    }
  }

  /** Past the conservation gate the results table is priced at one chip per chip. */
  lemma CashResultsAtGate(ps: seq<Player>, rate: real)
    requires TotalChips(ps) > 0 && Conservation(ps).Balanced?
    ensures CashResults(ps, rate) == Convert(ps, 1.0, rate)
  {
  }

  /**
   * Past the conservation gate, every player's net position is its chip gain
   * or loss times the rate, the positions keep the roster's names, and the
   * nets of the whole session add up to zero.
   */
  lemma NetsAfterGate(ps: seq<Player>, rate: real, n: string)
    requires TotalChips(ps) > 0 && Conservation(ps).Balanced?
    ensures forall k :: 0 <= k < |ps| ==> Nets(CashResults(ps, rate), rate)[k] == Gain(ps[k], rate)
    ensures NetSum(Nets(CashResults(ps, rate), rate)) == 0.0
    ensures NameCount(Nets(CashResults(ps, rate), rate), n) == Occurrences(ps, n)
  {
    CashResultsAtGate(ps, rate);
    forall k | 0 <= k < |ps| ensures Nets(Convert(ps, 1.0, rate), rate)[k] == Gain(ps[k], rate) {
      ConvertNetAt(ps, rate, k);
    }
    ConvertNets(ps, rate, n);
  }

  // ---------------------------------------------------------------------------
  // Payers and receivers

  /** The positions with a negative net, in their original order. */
  function Negatives(ns: seq<Position>): (r: seq<Position>)
    ensures AllNegative(r)
  {
    if ns == [] then []
    else (if ns[0].net < 0.0 then [ns[0]] else []) + Negatives(ns[1..])
  }

  /** The positions with a positive net, in their original order. */
  function Positives(ns: seq<Position>): (r: seq<Position>)
    ensures AllPositive(r)
  {
    if ns == [] then []
    else (if ns[0].net > 0.0 then [ns[0]] else []) + Positives(ns[1..])
  }

  /** Filtering keeps each position with the right sign as often as it occurs, and no other. */
  lemma {:induction false} FilterCounts(ns: seq<Position>, x: Position)
    ensures multiset(Negatives(ns))[x] == if x.net < 0.0 then multiset(ns)[x] else 0
    ensures multiset(Positives(ns))[x] == if x.net > 0.0 then multiset(ns)[x] else 0
  {
    if ns != [] {
      FilterCounts(ns[1..], x);
      HeadTail(ns);
    }
  }

  /** Payers are sorted by ascending net, receivers by descending net. */
  function Key(p: Position, descending: bool): real {
    if descending then -p.net else p.net
  }

  /** Each element's key is at most the next one's. */
  predicate Ordered(s: seq<Position>, descending: bool) {
    forall k :: 0 < k < |s| ==> Key(s[k - 1], descending) <= Key(s[k], descending)
  }

  /** Inserting `x` in front of the first element whose key is not below its own. */
  function Insert(x: Position, s: seq<Position>, descending: bool): (r: seq<Position>)
    requires Ordered(s, descending)
    ensures Ordered(r, descending)
    ensures multiset(r) == multiset(s) + multiset{x}
    ensures |r| == |s| + 1
    ensures r[0] == x || (s != [] && r[0] == s[0])
  {
    if s == [] || Key(x, descending) <= Key(s[0], descending) then [x] + s
    else
      var rest := Insert(x, s[1..], descending);
      HeadTail(s);
      [s[0]] + rest
  }

  /**
   * Stable insertion sort by key: the result is ordered and is a permutation
   * of the input.
   */
  function Sort(s: seq<Position>, descending: bool): (r: seq<Position>)
    ensures Ordered(r, descending)
    ensures multiset(r) == multiset(s)
  {
    if s == [] then []
    else
      HeadTail(s);
      Insert(s[0], Sort(s[1..], descending), descending)
  }

  /** Sorting keeps the sign of every position. */
  lemma SortSigns(s: seq<Position>, descending: bool)
    ensures AllNegative(s) ==> AllNegative(Sort(s, descending))
    ensures AllPositive(s) ==> AllPositive(Sort(s, descending))
  {
    var r := Sort(s, descending);
    forall k | 0 <= k < |r| ensures r[k] in s {
      assert r[k] in multiset(r);
    }
  }

  /** The payers, most negative first. */
  function Payers(ns: seq<Position>): (r: seq<Position>)
    ensures Ordered(r, false) && AllNegative(r)
  {
    SortSigns(Negatives(ns), false);
    Sort(Negatives(ns), false)
  }

  /** The receivers, largest first. */
  function Receivers(ns: seq<Position>): (r: seq<Position>)
    ensures Ordered(r, true) && AllPositive(r)
  {
    SortSigns(Positives(ns), true);
    Sort(Positives(ns), true)
  }

  /**
   * The payers are exactly the positions with a negative net and the
   * receivers exactly those with a positive net, each as often as it occurs;
   * a zero position is in neither list.
   */
  lemma PartitionExactly(ns: seq<Position>, x: Position)
    ensures multiset(Payers(ns))[x] == if x.net < 0.0 then multiset(ns)[x] else 0
    ensures multiset(Receivers(ns))[x] == if x.net > 0.0 then multiset(ns)[x] else 0
    ensures x.net == 0.0 ==> x !in Payers(ns) && x !in Receivers(ns)
  {
    FilterCounts(ns, x);
  }

  /** Filtering a list by sign, one position at a time. */
  lemma FiltersCons(ns: seq<Position>)
    requires ns != []
    ensures Negatives(ns) == (if ns[0].net < 0.0 then [ns[0]] else []) + Negatives(ns[1..])
    ensures Positives(ns) == (if ns[0].net > 0.0 then [ns[0]] else []) + Positives(ns[1..])
  {
  }

  /** Splitting into payers and receivers keeps the sum of the nets. */
  lemma {:induction false} PartitionSum(ns: seq<Position>)
    ensures NetSum(Negatives(ns)) + NetSum(Positives(ns)) == NetSum(ns)
    ensures |Negatives(ns)| + |Positives(ns)| <= |ns|
  {
    if ns != [] {
      PartitionSum(ns[1..]);
      FiltersCons(ns);
      var neg, pos := Negatives(ns[1..]), Positives(ns[1..]);
      assert [] + neg == neg && [] + pos == pos;
      if ns[0].net < 0.0 {
        assert NetSum([ns[0]] + neg) == ns[0].net + NetSum(neg) by { assert ([ns[0]] + neg)[1..] == neg; }
      } else if ns[0].net > 0.0 {
        assert NetSum([ns[0]] + pos) == ns[0].net + NetSum(pos) by { assert ([ns[0]] + pos)[1..] == pos; }
      }
    }
  }

  /** Splitting into payers and receivers drops only zero positions from the name counts. */
  lemma {:induction false} PartitionNames(ns: seq<Position>, n: string)
    ensures NameCount(Negatives(ns), n) + NameCount(Positives(ns), n) + ZeroCount(ns, n) == NameCount(ns, n)
  {
    if ns != [] {
      PartitionNames(ns[1..], n);
      FiltersCons(ns);
      var neg, pos := Negatives(ns[1..]), Positives(ns[1..]);
      assert [] + neg == neg && [] + pos == pos;
      if ns[0].net < 0.0 {
        assert NameCount([ns[0]] + neg, n) == (if ns[0].name == n then 1 else 0) + NameCount(neg, n) by {
          assert ([ns[0]] + neg)[1..] == neg;
        }
      } else if ns[0].net > 0.0 {
        assert NameCount([ns[0]] + pos, n) == (if ns[0].name == n then 1 else 0) + NameCount(pos, n) by {
          assert ([ns[0]] + pos)[1..] == pos;
        }
      }
    }
  }

  /** Inserting adds exactly the inserted position to the sum and the name counts. */
  lemma {:induction false} InsertKeeps(x: Position, s: seq<Position>, descending: bool, n: string)
    requires Ordered(s, descending)
    ensures NetSum(Insert(x, s, descending)) == x.net + NetSum(s)
    ensures NameCount(Insert(x, s, descending), n) == NameCount(s, n) + (if x.name == n then 1 else 0)
  {
    var r := Insert(x, s, descending);
    if s == [] || Key(x, descending) <= Key(s[0], descending) {
      assert r[0] == x && r[1..] == s;
    } else {
      var rest := Insert(x, s[1..], descending);
      assert r[0] == s[0] && r[1..] == rest by {
        assert r == [s[0]] + rest;
      }
      InsertKeeps(x, s[1..], descending, n);
    }
  }

  /** Sorting keeps the sum of the nets and the name counts. */
  lemma {:induction false} SortKeeps(s: seq<Position>, descending: bool, n: string)
    ensures NetSum(Sort(s, descending)) == NetSum(s)
    ensures NameCount(Sort(s, descending), n) == NameCount(s, n)
  {
    if s != [] {
      SortKeeps(s[1..], descending, n);
      InsertKeeps(s[0], Sort(s[1..], descending), descending, n);
    }
  }

  // ---------------------------------------------------------------------------
  // The greedy matcher

  function Min(a: real, b: real): real {
    if a <= b then a else b
  }

  function Abs(x: real): real {
    if x < 0.0 then -x else x
  }

  /**
   * When the matcher moves past a position: `|net| < tol`, or, for the
   * exact threshold 0, `net == 0`.
   */
  predicate Settled(net: real, tol: real) {
    net == 0.0 || Abs(net) < tol
  }

  /**
   * The transfers the two-cursor matcher emits for payers `P` and receivers
   * `R`, the head of each list being the position under its cursor: the head
   * payer pays the head receiver the smaller of debt and credit, both heads
   * move toward zero by that amount, and each list moves past its head once
   * the head is settled. One of the two heads always reaches exactly zero, so
   * every step moves at least one cursor.
   */
  function Greedy(P: seq<Position>, R: seq<Position>, tol: real): (r: seq<Transfer>)
    ensures P == [] || R == [] ==> r == []
    ensures P != [] && R != [] ==> 0 < |r| < |P| + |R|
    decreases |P| + |R|
  {
    if P == [] || R == [] then []
    else
      var amount := Min(-P[0].net, R[0].net);
      var p := P[0].(net := P[0].net + amount);
      var r := R[0].(net := R[0].net - amount);
      assert p.net == 0.0 || r.net == 0.0;
      [Transfer(p.name, r.name, amount)]
        + Greedy(if Settled(p.net, tol) then P[1..] else [p] + P[1..],
                 if Settled(r.net, tol) then R[1..] else [r] + R[1..], tol)
  }

  /** The head payer after paying `amount`. */
  function PayerAfter(P: seq<Position>, amount: real, tol: real): seq<Position>
    requires P != []
  {
    var p := P[0].(net := P[0].net + amount);
    if Settled(p.net, tol) then P[1..] else [p] + P[1..]
  }

  /** The head receiver after receiving `amount`. */
  function ReceiverAfter(R: seq<Position>, amount: real, tol: real): seq<Position>
    requires R != []
  {
    var r := R[0].(net := R[0].net - amount);
    if Settled(r.net, tol) then R[1..] else [r] + R[1..]
  }

  /** One step of the matcher. */
  lemma GreedyStep(P: seq<Position>, R: seq<Position>, tol: real)
    requires P != [] && R != []
    ensures var amount := Min(-P[0].net, R[0].net);
      Greedy(P, R, tol) == [Transfer(P[0].name, R[0].name, amount)]
        + Greedy(PayerAfter(P, amount, tol), ReceiverAfter(R, amount, tol), tol)
  {
  }

  /**
   * One pass of the loop body at cursors `i` and `j`: the payment is made in
   * place, and the cursors move past whatever it settled. What the matcher
   * still emits is this transfer followed by the rest from the new cursors.
   */
  method PayStep(payers: array<Position>, receivers: array<Position>, i: nat, j: nat, tol: real)
    returns (transfer: Transfer, i': nat, j': nat)
    requires payers != receivers
    requires i < payers.Length && j < receivers.Length
    modifies payers, receivers
    ensures i <= i' <= payers.Length && j <= j' <= receivers.Length && i + j < i' + j'
    ensures old(Greedy(payers[i..], receivers[j..], tol)) == [transfer] + Greedy(payers[i'..], receivers[j'..], tol)
  {
    ghost var P, R := payers[i..], receivers[j..];
    var amount := Min(-payers[i].net, receivers[j].net);
    transfer := Transfer(payers[i].name, receivers[j].name, amount);
    GreedyStep(P, R, tol);
    var p := payers[i].(net := payers[i].net + amount);
    var r := receivers[j].(net := receivers[j].net - amount);
    payers[i] := p;
    receivers[j] := r;
    assert p.net == 0.0 || r.net == 0.0;
    i', j' := i, j;
    if Settled(p.net, tol) {
      i' := i + 1;
      assert payers[i'..] == P[1..] == PayerAfter(P, amount, tol);
    } else {
      assert payers[i'..] == [p] + P[1..] == PayerAfter(P, amount, tol);
    }
    if Settled(r.net, tol) {
      j' := j + 1;
      assert receivers[j'..] == R[1..] == ReceiverAfter(R, amount, tol);
    } else {
      assert receivers[j'..] == [r] + R[1..] == ReceiverAfter(R, amount, tol);
    }
  }

  /**
   * The matcher run in place on the payer and receiver arrays, as the
   * session does it: it emits exactly the transfers `Greedy` describes.
   */
  method MatchSettlements(payers: array<Position>, receivers: array<Position>, tol: real)
    returns (settlements: seq<Transfer>)
    requires payers != receivers
    modifies payers, receivers
    ensures settlements == Greedy(old(payers[..]), old(receivers[..]), tol)
  {
    ghost var P0, R0 := payers[..], receivers[..];
    assert payers[0..] == P0 && receivers[0..] == R0;
    settlements := [];
    var i, j := 0, 0;
    while i < payers.Length && j < receivers.Length
      invariant 0 <= i <= payers.Length && 0 <= j <= receivers.Length
      invariant Greedy(P0, R0, tol) == settlements + Greedy(payers[i..], receivers[j..], tol)
      decreases payers.Length - i + receivers.Length - j
    {
      ghost var done := settlements;
      var transfer, i', j' := PayStep(payers, receivers, i, j, tol);
      settlements := settlements + [transfer];
      i, j := i', j';
      ghost var rest := Greedy(payers[i..], receivers[j..], tol);
      assert done + ([transfer] + rest) == settlements + rest;
    }
    assert payers[i..] == [] || receivers[j..] == [];
  }

  /** A fresh array holding `s`. */
  method ToArray(s: seq<Position>) returns (a: array<Position>)
    ensures fresh(a) && a[..] == s
  {
    a := new Position[|s|](k requires 0 <= k < |s| => s[k]);
  }

  /**
   * The transfers the matcher emits for the net positions of a results
   * table: each moves a positive amount from a row with a debt to a row with
   * a credit, and there are fewer of them than rows.
   */
  function Settle(results: seq<CashResult>, rate: real, tol: real): (r: seq<Transfer>)
    ensures r != [] ==> |r| < |results|
    ensures forall m :: 0 <= m < |r| ==>
      r[m].amount > 0.0 && NameCount(Nets(results, rate), r[m].payer) > 0
        && NameCount(Nets(results, rate), r[m].receiver) > 0
  {
    var ns := Nets(results, rate);
    PartitionSum(ns);
    assert |Payers(ns)| == |multiset(Payers(ns))| == |Negatives(ns)|;
    assert |Receivers(ns)| == |multiset(Receivers(ns))| == |Positives(ns)|;
    GreedyTransfers(Payers(ns), Receivers(ns), tol);
    PayersReceiversKeep(ns);
    Greedy(Payers(ns), Receivers(ns), tol)
  }

  /**
   * The settlement handler: net positions from the results, payers and
   * receivers split and sorted, then the matcher over fresh arrays.
   */
  method SimplifySettlements(results: seq<CashResult>, rate: real, tol: real)
    returns (settlements: seq<Transfer>)
    ensures settlements == Settle(results, rate, tol)
  {
    var ns := Nets(results, rate);
    var P, R := Payers(ns), Receivers(ns);
    var payers := ToArray(P);
    var receivers := ToArray(R);
    settlements := MatchSettlements(payers, receivers, tol);
  }

  // ---------------------------------------------------------------------------
  // What the matcher pays out

  /** The total `name` pays in `ts`. */
  function Paid(ts: seq<Transfer>, name: string): real {
    if ts == [] then 0.0 else (if ts[0].payer == name then ts[0].amount else 0.0) + Paid(ts[1..], name)
  }

  /** The total `name` receives in `ts`. */
  function Received(ts: seq<Transfer>, name: string): real {
    if ts == [] then 0.0 else (if ts[0].receiver == name then ts[0].amount else 0.0) + Received(ts[1..], name)
  }

  lemma TransfersCons(t: Transfer, ts: seq<Transfer>, name: string)
    ensures Paid([t] + ts, name) == (if t.payer == name then t.amount else 0.0) + Paid(ts, name)
    ensures Received([t] + ts, name) == (if t.receiver == name then t.amount else 0.0) + Received(ts, name)
  {
    assert ([t] + ts)[1..] == ts;
  }

  /** A position counts toward its own name. */
  lemma {:induction false} NameCountAt(s: seq<Position>, k: nat)
    requires k < |s|
    ensures NameCount(s, s[k].name) >= 1
    ensures k > 0 ==> NameCount(s, s[k].name) >= (if s[0].name == s[k].name then 2 else 1)
  {
    if k > 0 {
      NameCountAt(s[1..], k - 1);
    }
  }

  /** A non-empty list of positive positions has a positive sum. */
  lemma {:induction false} PositiveSum(s: seq<Position>)
    requires AllPositive(s) && s != []
    ensures NetSum(s) > 0.0
  {
    if |s| > 1 {
      PositiveSum(s[1..]);
    }
  }

  /** A non-empty list of negative positions has a negative sum. */
  lemma {:induction false} NegativeSum(s: seq<Position>)
    requires AllNegative(s) && s != []
    ensures NetSum(s) < 0.0
  {
    if |s| > 1 {
      NegativeSum(s[1..]);
    }
  }

  /**
   * After a payment of at most its debt, the payer list keeps its names (less
   * the head once settled), stays negative, and, with the exact threshold,
   * its sum moves by exactly the amount paid.
   */
  lemma PayerAfterFacts(P: seq<Position>, amount: real, tol: real, n: string)
    requires P != []
    ensures NameCount(PayerAfter(P, amount, tol), n) <= NameCount(P, n)
    ensures tol == EXACT_TOLERANCE ==> NetSum(PayerAfter(P, amount, tol)) == NetSum(P) + amount
    ensures AllNegative(P) && amount <= -P[0].net ==> AllNegative(PayerAfter(P, amount, tol))
  {
    var p := P[0].(net := P[0].net + amount);
    if !Settled(p.net, tol) {
      assert ([p] + P[1..])[1..] == P[1..];
    }
  }

  /** The receiver-side counterpart of PayerAfterFacts. */
  lemma ReceiverAfterFacts(R: seq<Position>, amount: real, tol: real, n: string)
    requires R != []
    ensures NameCount(ReceiverAfter(R, amount, tol), n) <= NameCount(R, n)
    ensures tol == EXACT_TOLERANCE ==> NetSum(ReceiverAfter(R, amount, tol)) == NetSum(R) - amount
    ensures AllPositive(R) && amount <= R[0].net ==> AllPositive(ReceiverAfter(R, amount, tol))
  {
    var r := R[0].(net := R[0].net - amount);
    if !Settled(r.net, tol) {
      assert ([r] + R[1..])[1..] == R[1..];
    }
  }

  /**
   * Every transfer goes from a payer to a receiver and moves a positive
   * amount, whatever the threshold.
   */
  lemma {:induction false} GreedyTransfers(P: seq<Position>, R: seq<Position>, tol: real)
    requires AllNegative(P) && AllPositive(R)
    ensures forall m :: 0 <= m < |Greedy(P, R, tol)| ==>
      Greedy(P, R, tol)[m].amount > 0.0 &&
      NameCount(P, Greedy(P, R, tol)[m].payer) > 0 &&
      NameCount(R, Greedy(P, R, tol)[m].receiver) > 0
    decreases |P| + |R|
  {
    if P != [] && R != [] {
      var amount := Min(-P[0].net, R[0].net);
      var P', R' := PayerAfter(P, amount, tol), ReceiverAfter(R, amount, tol);
      GreedyStep(P, R, tol);
      PayerAfterFacts(P, amount, tol, "");
      ReceiverAfterFacts(R, amount, tol, "");
      GreedyTransfers(P', R', tol);
      var T, T' := Greedy(P, R, tol), Greedy(P', R', tol);
      forall m | 0 <= m < |T|
        ensures T[m].amount > 0.0 && NameCount(P, T[m].payer) > 0 && NameCount(R, T[m].receiver) > 0
      {
        if m == 0 {
          NameCountAt(P, 0);
          NameCountAt(R, 0);
        } else {
          assert T[m] == T'[m - 1];
          PayerAfterFacts(P, amount, tol, T[m].payer);
          ReceiverAfterFacts(R, amount, tol, T[m].receiver);
        }
      }
    }
  }

  /** Nobody outside the payer list pays anything. */
  lemma {:induction false} PaidAbsent(P: seq<Position>, R: seq<Position>, tol: real, n: string)
    requires NameCount(P, n) == 0
    ensures Paid(Greedy(P, R, tol), n) == 0.0
    decreases |P| + |R|
  {
    if P != [] && R != [] {
      var amount := Min(-P[0].net, R[0].net);
      var P', R' := PayerAfter(P, amount, tol), ReceiverAfter(R, amount, tol);
      GreedyStep(P, R, tol);
      PayerAfterFacts(P, amount, tol, n);
      PaidAbsent(P', R', tol, n);
      TransfersCons(Transfer(P[0].name, R[0].name, amount), Greedy(P', R', tol), n);
    }
  }

  /** Nobody outside the receiver list receives anything. */
  lemma {:induction false} ReceivedAbsent(P: seq<Position>, R: seq<Position>, tol: real, n: string)
    requires NameCount(R, n) == 0
    ensures Received(Greedy(P, R, tol), n) == 0.0
    decreases |P| + |R|
  {
    if P != [] && R != [] {
      var amount := Min(-P[0].net, R[0].net);
      var P', R' := PayerAfter(P, amount, tol), ReceiverAfter(R, amount, tol);
      GreedyStep(P, R, tol);
      ReceiverAfterFacts(R, amount, tol, n);
      ReceivedAbsent(P', R', tol, n);
      TransfersCons(Transfer(P[0].name, R[0].name, amount), Greedy(P', R', tol), n);
    }
  }

  /**
   * With the exact threshold, when the nets sum to zero and no name is both
   * paying and receiving or listed twice, every payer pays exactly its debt
   * and every receiver receives exactly its credit.
   */
  lemma {:induction false} GreedyDischarges(P: seq<Position>, R: seq<Position>)
    requires AllNegative(P) && AllPositive(R)
    requires NetSum(P) + NetSum(R) == 0.0
    requires forall n :: NameCount(P, n) + NameCount(R, n) <= 1
    ensures forall k :: 0 <= k < |P| ==> Paid(Greedy(P, R, EXACT_TOLERANCE), P[k].name) == -P[k].net
    ensures forall k :: 0 <= k < |R| ==> Received(Greedy(P, R, EXACT_TOLERANCE), R[k].name) == R[k].net
    decreases |P| + |R|
  {
    if P == [] && R != [] {
      PositiveSum(R);
      assert false;
    } else if P != [] && R == [] {
      NegativeSum(P);
      assert false;
    } else if P != [] && R != [] {
      var tol := EXACT_TOLERANCE;
      var amount := Min(-P[0].net, R[0].net);
      var P', R' := PayerAfter(P, amount, tol), ReceiverAfter(R, amount, tol);
      var t := Transfer(P[0].name, R[0].name, amount);
      GreedyStep(P, R, tol);
      var T, T' := Greedy(P, R, tol), Greedy(P', R', tol);
      assert T == [t] + T';
      PayerAfterFacts(P, amount, tol, "");
      ReceiverAfterFacts(R, amount, tol, "");
      forall n ensures NameCount(P', n) + NameCount(R', n) <= 1 {
        PayerAfterFacts(P, amount, tol, n);
        ReceiverAfterFacts(R, amount, tol, n);
      }
      GreedyDischarges(P', R');
      forall k | 0 <= k < |P| ensures Paid(T, P[k].name) == -P[k].net {
        var n := P[k].name;
        TransfersCons(t, T', n);
        NameCountAt(P, k);
        if k == 0 {
          if Settled(P[0].net + amount, tol) {
            PaidAbsent(P', R', tol, n);
          } else {
            assert P'[0].name == n;
          }
        } else {
          if Settled(P[0].net + amount, tol) {
            assert P'[k - 1] == P[k];
          } else {
            assert P'[k] == P[k];
          }
        }
      }
      forall k | 0 <= k < |R| ensures Received(T, R[k].name) == R[k].net {
        var n := R[k].name;
        TransfersCons(t, T', n);
        NameCountAt(R, k);
        if k == 0 {
          if Settled(R[0].net - amount, tol) {
            ReceivedAbsent(P', R', tol, n);
          } else {
            assert R'[0].name == n;
          }
        } else {
          if Settled(R[0].net - amount, tol) {
            assert R'[k - 1] == R[k];
          } else {
            assert R'[k] == R[k];
          }
        }
      }
    }
  }

  /**
   * With the one-cent threshold as written, sub-cent remainders are dropped
   * and add up: two payers owing 10 and receivers owed 9.995, 9.995 and 0.01
   * (nets that sum to zero, in the order the payer and receiver lists hold
   * them) end with the last receiver paid nothing, while the exact threshold
   * pays it its full 0.01.
   */
  lemma CentToleranceLeavesCreditUnpaid()
    ensures var P := [Position("A", -10.0), Position("B", -10.0)];
      var R := [Position("C", 9.995), Position("D", 9.995), Position("E", 0.01)];
      && AllNegative(P) && AllPositive(R) && Ordered(P, false) && Ordered(R, true)
      && NetSum(P) + NetSum(R) == 0.0
      && Received(Greedy(P, R, CENT_TOLERANCE), "E") == 0.0
      && Received(Greedy(P, R, EXACT_TOLERANCE), "E") == 0.01
  {
    var P := [Position("A", -10.0), Position("B", -10.0)];
    var R := [Position("C", 9.995), Position("D", 9.995), Position("E", 0.01)];
    CentRun(P, R);
    ExampleNamesDistinct(P, R);
    GreedyDischarges(P, R);
    assert R[2].name == "E";
  }

  /** The run with the one-cent threshold: A pays C, B pays D, and the loop stops. */
  lemma CentRun(P: seq<Position>, R: seq<Position>)
    requires P == [Position("A", -10.0), Position("B", -10.0)]
    requires R == [Position("C", 9.995), Position("D", 9.995), Position("E", 0.01)]
    ensures Received(Greedy(P, R, CENT_TOLERANCE), "E") == 0.0
  {
    var tol := CENT_TOLERANCE;
    GreedyStep(P, R, tol);
    assert PayerAfter(P, 9.995, tol) == [Position("B", -10.0)];
    assert ReceiverAfter(R, 9.995, tol) == [Position("D", 9.995), Position("E", 0.01)];
    var P1, R1 := [Position("B", -10.0)], [Position("D", 9.995), Position("E", 0.01)];
    GreedyStep(P1, R1, tol);
    assert PayerAfter(P1, 9.995, tol) == [];
    var T := Greedy(P, R, tol);
    assert T == [Transfer("A", "C", 9.995), Transfer("B", "D", 9.995)];
    TransfersCons(T[0], T[1..], "E");
    TransfersCons(T[1], [], "E");
    assert T[1..] == [T[1]] + [];
  }

  /**
   * The dropped remainders can add up past the threshold itself: three payers
   * owing 10 and receivers owed 9.991 three times and 0.027 (summing to zero)
   * leave the last receiver unpaid, 0.027 short, which is more than a cent.
   */
  lemma CentToleranceLeavesMoreThanCentUnpaid()
    ensures var P := [Position("A", -10.0), Position("B", -10.0), Position("C", -10.0)];
      var R := [Position("D", 9.991), Position("E", 9.991), Position("F", 9.991), Position("G", 0.027)];
      && AllNegative(P) && AllPositive(R) && Ordered(P, false) && Ordered(R, true)
      && NetSum(P) + NetSum(R) == 0.0
      && Received(Greedy(P, R, CENT_TOLERANCE), "G") == 0.0
      && R[3].net - Received(Greedy(P, R, CENT_TOLERANCE), "G") > CENT_TOLERANCE
  {
    var P := [Position("A", -10.0), Position("B", -10.0), Position("C", -10.0)];
    var R := [Position("D", 9.991), Position("E", 9.991), Position("F", 9.991), Position("G", 0.027)];
    WideCentRun(P, R);
  }

  /** The run with the one-cent threshold: A pays D, B pays E, C pays F, and the loop stops. */
  lemma WideCentRun(P: seq<Position>, R: seq<Position>)
    requires P == [Position("A", -10.0), Position("B", -10.0), Position("C", -10.0)]
    requires R == [Position("D", 9.991), Position("E", 9.991), Position("F", 9.991), Position("G", 0.027)]
    ensures Received(Greedy(P, R, CENT_TOLERANCE), "G") == 0.0
  {
    var tol := CENT_TOLERANCE;
    GreedyStep(P, R, tol);
    var P1, R1 := P[1..], R[1..];
    assert PayerAfter(P, 9.991, tol) == P1 && ReceiverAfter(R, 9.991, tol) == R1;
    GreedyStep(P1, R1, tol);
    var P2, R2 := P1[1..], R1[1..];
    assert PayerAfter(P1, 9.991, tol) == P2 && ReceiverAfter(R1, 9.991, tol) == R2;
    GreedyStep(P2, R2, tol);
    assert PayerAfter(P2, 9.991, tol) == [];
    var T := Greedy(P, R, tol);
    assert T == [Transfer("A", "D", 9.991), Transfer("B", "E", 9.991), Transfer("C", "F", 9.991)];
    TransfersCons(T[0], T[1..], "G");
    TransfersCons(T[1], T[2..], "G");
    TransfersCons(T[2], [], "G");
    assert T[1..] == [T[1]] + T[2..] && T[2..] == [T[2]] + [];
  }

  /** No name of the example is listed twice. */
  lemma ExampleNamesDistinct(P: seq<Position>, R: seq<Position>)
    requires P == [Position("A", -10.0), Position("B", -10.0)]
    requires R == [Position("C", 9.995), Position("D", 9.995), Position("E", 0.01)]
    ensures forall n :: NameCount(P, n) + NameCount(R, n) <= 1
  {
    forall n ensures NameCount(P, n) + NameCount(R, n) <= 1 {
      assert P[1..] == [P[1]] && P[1..][1..] == [];
      assert R[1..] == [R[1], R[2]] && R[1..][1..] == [R[2]] && R[1..][1..][1..] == [];
      assert NameCount(P[1..], n) == (if n == "B" then 1 else 0);
      assert NameCount(P, n) == (if n == "A" then 1 else 0) + (if n == "B" then 1 else 0);
      assert NameCount(R[1..][1..], n) == (if n == "E" then 1 else 0);
      assert NameCount(R[1..], n) == (if n == "D" then 1 else 0) + (if n == "E" then 1 else 0);
      assert NameCount(R, n) == (if n == "C" then 1 else 0) + (if n == "D" then 1 else 0) + (if n == "E" then 1 else 0);
    }
  }

  // ---------------------------------------------------------------------------
  // The schedule of a finalized roster

  /** A zero position counts toward the zero positions of its name. */
  lemma {:induction false} ZeroCountAt(s: seq<Position>, k: nat)
    requires k < |s| && s[k].net == 0.0
    ensures ZeroCount(s, s[k].name) >= 1
  {
    if k > 0 {
      ZeroCountAt(s[1..], k - 1);
    }
  }

  /** The transfers that settle a finalized roster of n players with threshold `tol`: at most n - 1. */
  function Schedule(ps: seq<Player>, rate: real, tol: real): (r: seq<Transfer>)
    requires TotalChips(ps) > 0
    ensures |r| <= |ps| - 1
  {
    Settle(CashResults(ps, rate), rate, tol)
  }

  /** The payer and receiver lists together keep the sum and the names of the nonzero positions. */
  lemma PayersReceiversKeep(ns: seq<Position>)
    ensures NetSum(Payers(ns)) + NetSum(Receivers(ns)) == NetSum(ns)
    ensures forall n :: NameCount(Payers(ns), n) + NameCount(Receivers(ns), n) + ZeroCount(ns, n) == NameCount(ns, n)
  {
    var neg, pos := Negatives(ns), Positives(ns);
    PartitionSum(ns);
    SortKeeps(neg, false, "");
    SortKeeps(pos, true, "");
    forall n
      ensures NameCount(Payers(ns), n) + NameCount(Receivers(ns), n) + ZeroCount(ns, n) == NameCount(ns, n)
    {
      PartitionNames(ns, n);
      SortKeeps(neg, false, n);
      SortKeeps(pos, true, n);
    }
  }

  /**
   * Under the exact threshold, a payer pays its debt and receives nothing;
   * a receiver receives its credit and pays nothing.
   */
  lemma ListedSettled(P: seq<Position>, R: seq<Position>, x: Position)
    requires AllNegative(P) && AllPositive(R)
    requires NetSum(P) + NetSum(R) == 0.0
    requires forall n :: NameCount(P, n) + NameCount(R, n) <= 1
    requires x in P || x in R
    ensures Paid(Greedy(P, R, EXACT_TOLERANCE), x.name) - Received(Greedy(P, R, EXACT_TOLERANCE), x.name) == -x.net
  {
    GreedyDischarges(P, R);
    if x in P {
      var m :| 0 <= m < |P| && P[m] == x;
      NameCountAt(P, m);
      ReceivedAbsent(P, R, EXACT_TOLERANCE, x.name);
    } else {
      var m :| 0 <= m < |R| && R[m] == x;
      NameCountAt(R, m);
      PaidAbsent(P, R, EXACT_TOLERANCE, x.name);
    }
  }

  /** A nonzero position is listed as a payer or as a receiver. */
  lemma NonzeroListed(ns: seq<Position>, k: nat)
    requires k < |ns| && ns[k].net != 0.0
    ensures ns[k] in Payers(ns) || ns[k] in Receivers(ns)
  {
    PartitionExactly(ns, ns[k]);
    assert ns[k] in multiset(ns);
    if ns[k].net < 0.0 {
      assert ns[k] in multiset(Payers(ns));
    } else {
      assert ns[k] in multiset(Receivers(ns));
    }
  }

  /** A zero position neither pays nor receives. */
  lemma ZeroSettled(ns: seq<Position>, k: nat, tol: real)
    requires k < |ns| && ns[k].net == 0.0
    requires forall n :: NameCount(ns, n) <= 1
    ensures Paid(Greedy(Payers(ns), Receivers(ns), tol), ns[k].name) == 0.0
    ensures Received(Greedy(Payers(ns), Receivers(ns), tol), ns[k].name) == 0.0
  {
    PayersReceiversKeep(ns);
    ZeroCountAt(ns, k);
    PaidAbsent(Payers(ns), Receivers(ns), tol, ns[k].name);
    ReceivedAbsent(Payers(ns), Receivers(ns), tol, ns[k].name);
  }

  /**
   * With the exact threshold, positions that sum to zero under distinct names
   * are settled in full: each pays, net of what it receives, exactly minus its
   * net position.
   */
  lemma PositionsSettled(ns: seq<Position>, k: nat)
    requires k < |ns|
    requires NetSum(ns) == 0.0
    requires forall n :: NameCount(ns, n) <= 1
    ensures Paid(Greedy(Payers(ns), Receivers(ns), EXACT_TOLERANCE), ns[k].name)
      - Received(Greedy(Payers(ns), Receivers(ns), EXACT_TOLERANCE), ns[k].name) == -ns[k].net
  {
    if ns[k].net != 0.0 {
      PayersReceiversKeep(ns);
      NonzeroListed(ns, k);
      ListedSettled(Payers(ns), Receivers(ns), ns[k]);
    } else {
      ZeroSettled(ns, k, EXACT_TOLERANCE);
    }
  }

  /**
   * With the exact threshold, a balanced session whose players have distinct
   * names is settled in full: every player pays, net of what it receives,
   * exactly its loss in money, `(buyins - chips) * rate`, so winners receive
   * their winnings and players who broke even neither pay nor receive.
   */
  lemma {:induction false} ScheduleSettlesEveryone(ps: seq<Player>, rate: real)
    requires TotalChips(ps) > 0 && Conservation(ps).Balanced?
    requires forall n :: Occurrences(ps, n) <= 1
    ensures forall k :: 0 <= k < |ps| ==>
      Paid(Schedule(ps, rate, EXACT_TOLERANCE), ps[k].name)
        - Received(Schedule(ps, rate, EXACT_TOLERANCE), ps[k].name)
        == (ps[k].buyins as real - Chips(ps[k]) as real) * rate
  {
    forall k | 0 <= k < |ps|
      ensures Paid(Schedule(ps, rate, EXACT_TOLERANCE), ps[k].name)
        - Received(Schedule(ps, rate, EXACT_TOLERANCE), ps[k].name)
        == (ps[k].buyins as real - Chips(ps[k]) as real) * rate
    {
      PlayerSettled(ps, rate, k);
    }
  }

  /** One player of a balanced roster with distinct names is settled exactly. */
  lemma {:induction false} PlayerSettled(ps: seq<Player>, rate: real, k: nat)
    requires TotalChips(ps) > 0 && Conservation(ps).Balanced? && k < |ps|
    requires forall n :: Occurrences(ps, n) <= 1
    ensures Paid(Schedule(ps, rate, EXACT_TOLERANCE), ps[k].name)
      - Received(Schedule(ps, rate, EXACT_TOLERANCE), ps[k].name)
      == (ps[k].buyins as real - Chips(ps[k]) as real) * rate
  {
    var ns := Nets(CashResults(ps, rate), rate);
    NetsAfterGate(ps, rate, "");
    forall n ensures NameCount(ns, n) <= 1 {
      NetsAfterGate(ps, rate, n);
    }
    PositionsSettled(ns, k);
    assert ns[k] == Gain(ps[k], rate);
    NegatedGain(Chips(ps[k]) as real, ps[k].buyins as real, rate);
  }

  lemma NegatedGain(chips: real, buyins: real, rate: real)
    ensures -((chips - buyins) * rate) == (buyins - chips) * rate
  {}

  /** The roster of the session below; its position list is the one above. */
  const EXAMPLE_ROSTER: seq<Player> :=
    [Player("A", 2000, Some(0)), Player("B", 2000, Some(0)), Player("C", 1, Some(2000)),
     Player("D", 1, Some(2000)), Player("E", 1, Some(3))]

  /** The example roster bought 4003 chips and counted 4003. */
  lemma ExampleRosterBalanced()
    ensures TotalBuyins(EXAMPLE_ROSTER) == 4003 && TotalChips(EXAMPLE_ROSTER) == 4003
  {
    var ps := EXAMPLE_ROSTER;
    assert TotalBuyins(ps[4..]) == 1 && TotalChips(ps[4..]) == 3;
    assert TotalBuyins(ps[3..]) == 2 && TotalChips(ps[3..]) == 2003;
    assert TotalBuyins(ps[2..]) == 3 && TotalChips(ps[2..]) == 4003;
    assert TotalBuyins(ps[1..]) == 2003 && TotalChips(ps[1..]) == 4003;
  }

  /** At a rate of 0.5%, the example roster passes the gate and has nets -10, -10, 9.995, 9.995, 0.01. */
  lemma ExampleRosterNets()
    ensures TotalChips(EXAMPLE_ROSTER) > 0 && Conservation(EXAMPLE_ROSTER).Balanced?
    ensures Nets(CashResults(EXAMPLE_ROSTER, 0.005), 0.005)
         == [Position("A", -10.0), Position("B", -10.0), Position("C", 9.995), Position("D", 9.995), Position("E", 0.01)]
  {
    var ps := EXAMPLE_ROSTER;
    ExampleRosterBalanced();
    NetsAfterGate(ps, 0.005, "");
    ExampleGains();
    var ns := Nets(CashResults(ps, 0.005), 0.005);
    assert |ns| == 5;
    assert ns == [ns[0], ns[1], ns[2], ns[3], ns[4]];
  }

  /** The chip gains of the example players at a rate of 0.5%. */
  lemma ExampleGains()
    ensures Gain(EXAMPLE_ROSTER[0], 0.005) == Position("A", -10.0)
    ensures Gain(EXAMPLE_ROSTER[1], 0.005) == Position("B", -10.0)
    ensures Gain(EXAMPLE_ROSTER[2], 0.005) == Position("C", 9.995)
    ensures Gain(EXAMPLE_ROSTER[3], 0.005) == Position("D", 9.995)
    ensures Gain(EXAMPLE_ROSTER[4], 0.005) == Position("E", 0.01)
  {
  }

  /** Only the first two example positions owe money. */
  lemma ExampleNegatives(ns: seq<Position>)
    requires ns == [Position("A", -10.0), Position("B", -10.0), Position("C", 9.995), Position("D", 9.995), Position("E", 0.01)]
    ensures Negatives(ns) == [Position("A", -10.0), Position("B", -10.0)]
  {
    var a, b := Position("A", -10.0), Position("B", -10.0);
    var c, d, e := Position("C", 9.995), Position("D", 9.995), Position("E", 0.01);
    assert ns[1..] == [b, c, d, e] && ns[1..][1..] == [c, d, e];
    assert [c, d, e][1..] == [d, e] && [d, e][1..] == [e] && [e][1..] == [];
    assert Negatives([e]) == [];
    assert Negatives([d, e]) == [];
    assert Negatives([c, d, e]) == [];
    assert Negatives([b, c, d, e]) == [b];
  }

  /** Only the last three example positions are owed money. */
  lemma ExamplePositives(ns: seq<Position>)
    requires ns == [Position("A", -10.0), Position("B", -10.0), Position("C", 9.995), Position("D", 9.995), Position("E", 0.01)]
    ensures Positives(ns) == [Position("C", 9.995), Position("D", 9.995), Position("E", 0.01)]
  {
    var a, b := Position("A", -10.0), Position("B", -10.0);
    var c, d, e := Position("C", 9.995), Position("D", 9.995), Position("E", 0.01);
    assert ns[1..] == [b, c, d, e] && ns[1..][1..] == [c, d, e];
    assert [c, d, e][1..] == [d, e] && [d, e][1..] == [e] && [e][1..] == [];
    assert Positives([e]) == [e] + [] == [e];
    assert Positives([d, e]) == [d] + [e] == [d, e];
    assert Positives([c, d, e]) == [c] + [d, e] == [c, d, e];
    assert Positives([b, c, d, e]) == [c, d, e];
  }

  /** Sorting the example payers keeps their order. */
  lemma ExamplePayerOrder()
    ensures Sort([Position("A", -10.0), Position("B", -10.0)], false) == [Position("A", -10.0), Position("B", -10.0)]
  {
    var a, b := Position("A", -10.0), Position("B", -10.0);
    assert [a, b][1..] == [b] && [b][1..] == [];
    assert Sort([b], false) == [b];
  }

  /** Sorting the example receivers keeps their order. */
  lemma ExampleReceiverOrder()
    ensures Sort([Position("C", 9.995), Position("D", 9.995), Position("E", 0.01)], true)
         == [Position("C", 9.995), Position("D", 9.995), Position("E", 0.01)]
  {
    var c, d, e := Position("C", 9.995), Position("D", 9.995), Position("E", 0.01);
    assert [c, d, e][1..] == [d, e] && [d, e][1..] == [e] && [e][1..] == [];
    assert Sort([e], true) == [e];
    assert Sort([d, e], true) == [d, e];
  }

  /**
   * The remainder case is reachable from a balanced session: at a rate of
   * 0.5% (200 chips to the unit), A and B buy 2000 chips and lose them all,
   * C and D buy 1 and finish with 2000, E buys 1 and finishes with 3. E is
   * owed 0.01 and, with the one-cent threshold, is paid nothing.
   */
  lemma CentToleranceSessionExample()
    ensures TotalChips(EXAMPLE_ROSTER) > 0 && Conservation(EXAMPLE_ROSTER).Balanced?
    ensures (Chips(EXAMPLE_ROSTER[4]) as real - EXAMPLE_ROSTER[4].buyins as real) * 0.005 == 0.01
    ensures Received(Schedule(EXAMPLE_ROSTER, 0.005, CENT_TOLERANCE), "E") == 0.0
    ensures Received(Schedule(EXAMPLE_ROSTER, 0.005, EXACT_TOLERANCE), "E") == 0.01
  {
    ExampleRosterNets();
    ExampleNegatives(Nets(CashResults(EXAMPLE_ROSTER, 0.005), 0.005));
    ExamplePositives(Nets(CashResults(EXAMPLE_ROSTER, 0.005), 0.005));
    ExamplePayerOrder();
    ExampleReceiverOrder();
    CentToleranceLeavesCreditUnpaid();
  }
}
