/** The budget overview card: the status band of each budget, the overall
    totals and percentage, and the overall progress bar. */
module BudgetOverview {
  import opened Wrappers
  import opened Records
  import opened Aggregation
  import Money

  datatype Status = OverBudget | NearLimit | OnTrack

  /** `getBudgetStatus`: over budget from 100 percent, near the limit from
      80; the three bands cover every percentage once. */
  function StatusOf(percentage: real): (s: Status)
    ensures s == OverBudget <==> percentage >= 100.0
    ensures s == NearLimit <==> 80.0 <= percentage < 100.0
    ensures s == OnTrack <==> percentage < 80.0
  {
    if percentage >= 100.0 then OverBudget
    else if percentage >= 80.0 then NearLimit
    else OnTrack
  }

  function TotalBudget(bs: seq<Budget>): (r: int)
    ensures (forall i :: 0 <= i < |bs| ==> bs[i].amount >= 0) ==> r >= 0
  {
    if bs == [] then 0 else bs[0].amount + TotalBudget(bs[1..])
  }

  function TotalSpent(bs: seq<Budget>): (r: int)
    ensures (forall i :: 0 <= i < |bs| ==> bs[i].spent >= 0) ==> r >= 0
  {
    if bs == [] then 0 else bs[0].spent + TotalSpent(bs[1..])
  }

  /** `totalBudget > 0 ? totalSpent / totalBudget * 100 : 0`, not clamped. */
  function OverallPercentage(bs: seq<Budget>): (p: real)
    ensures TotalBudget(bs) <= 0 ==> p == 0.0
    ensures TotalBudget(bs) > 0 ==> p * (TotalBudget(bs) as real) == 100.0 * (TotalSpent(bs) as real)
  {
    var total := TotalBudget(bs);
    if total > 0 then
      var t := total as real;
      var s := TotalSpent(bs) as real;
      assert (s / t) * t == s;
      s / t * 100.0
    else 0.0
  }

  /** `Math.min(100, overallPercentage)`: the bar never runs past full. */
  function ProgressValue(bs: seq<Budget>): (v: real)
    ensures v <= 100.0
    ensures OverallPercentage(bs) <= 100.0 ==> v == OverallPercentage(bs)
    ensures OverallPercentage(bs) > 100.0 ==> v == 100.0
  {
    var p := OverallPercentage(bs);
    if p < 100.0 then p else 100.0
  }

  /** The overall badge is "over" exactly when the total spent reaches the
      total budget, and "near" from four fifths of it. */
  lemma OverallStatus(bs: seq<Budget>)
    requires TotalBudget(bs) > 0
    ensures StatusOf(OverallPercentage(bs)) == OverBudget <==> TotalSpent(bs) >= TotalBudget(bs)
    ensures StatusOf(OverallPercentage(bs)) != OnTrack <==> 5 * TotalSpent(bs) >= 4 * TotalBudget(bs)
  {
    var p := OverallPercentage(bs);
    var sp, tb := TotalSpent(bs), TotalBudget(bs);
    Money.ScaledBelow(p, sp, tb, 100);
    Money.ScaledBelow(p, sp, tb, 80);
  }

  /** Overspending shows above 100 percent: one budget of 100.00 with
      150.00 spent reads 150 percent while the bar stays full. */
  lemma OverallNotClamped()
    ensures OverallPercentage([Budget(Ids(None, None), Unscoped, "Food", 10000, 15000, 0, 100.0)]) == 150.0
    ensures ProgressValue([Budget(Ids(None, None), Unscoped, "Food", 10000, 15000, 0, 100.0)]) == 100.0
  {
    var bs := [Budget(Ids(None, None), Unscoped, "Food", 10000, 15000, 0, 100.0)];
    assert TotalBudget(bs) == 10000 && TotalSpent(bs) == 15000 by {
      assert bs[1..] == [];
    }
  }

  /** For a budget whose status comes from the shared formula, the band is
      decided by spending against the amount: over budget once the amount
      is spent, near the limit from four fifths of it. */
  lemma BandOfDerivedBudget(b: Budget, spent: int)
    requires b.amount > 0 && spent >= 0
    ensures StatusOf(WithStatus(b, spent).percentage) == OverBudget <==> spent >= b.amount
    ensures StatusOf(WithStatus(b, spent).percentage) == NearLimit <==> 5 * spent >= 4 * b.amount && spent < b.amount
  {
    var p := WithStatus(b, spent).percentage;
    if spent < b.amount {
      Money.ScaledBelow(p, spent, b.amount, 100);
      Money.ScaledBelow(p, spent, b.amount, 80);
    }
  }

  /** The note under a budget's bar: the amount left, or the amount over. */
  datatype Remark = Left(left: int) | Over(over: int)

  /** The note as the card writes it: `remaining > 0` gives the amount
      left, otherwise `Math.abs(remaining)` over. */
  function NoteAsWritten(b: Budget): (n: Remark)
    ensures b.remaining > 0 <==> n.Left?
    ensures n.Left? ==> n.left == b.remaining
    ensures n.Over? ==> n.over >= 0 && (n.over == b.remaining || n.over == -b.remaining)
  {
    if b.remaining > 0 then Left(b.remaining) else Over(if b.remaining < 0 then -b.remaining else b.remaining)
  }

  /** The remaining amount is never negative, so an overspent budget reads
      "0.00 over" whatever it overspent by. */
  lemma AsWrittenHidesOverspend(b: Budget, spent: int)
    requires spent > b.amount
    ensures NoteAsWritten(WithStatus(b, spent)) == Over(0)
  {
  }

  /** A budget of 100.00 with 150.00 spent is noted as 0.00 over. */
  lemma OverspendExample()
    ensures NoteAsWritten(WithStatus(Budget(Ids(None, None), Unscoped, "Food", 10000, 0, 0, 0.0), 15000)) == Over(0)
  {
  }

  /** The note as intended: the overspend is the spending beyond the
      amount. */
  function NoteOf(b: Budget): (n: Remark)
    ensures b.remaining > 0 <==> n.Left?
    ensures n.Left? ==> n.left == b.remaining
    ensures n.Over? ==> n.over == b.spent - b.amount
  {
    if b.remaining > 0 then Left(b.remaining) else Over(b.spent - b.amount)
  }

  /** What a note says, as a signed amount: left is positive, over negative. */
  function Signed(n: Remark): int {
    match n
    case Left(x) => x
    case Over(y) => -y
  }

  /** For a derived budget the intended note tells exactly how far spending
      is from the amount, and says "over" exactly when the amount is
      used up. */
  lemma NoteTellsDifference(b: Budget, spent: int)
    ensures Signed(NoteOf(WithStatus(b, spent))) == b.amount - spent
    ensures NoteOf(WithStatus(b, spent)).Over? <==> spent >= b.amount
    ensures NoteOf(WithStatus(b, spent)).Over? ==> NoteOf(WithStatus(b, spent)).over >= 0
  {
  }
}
