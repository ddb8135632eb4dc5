/** The budget-versus-actual chart: one bar group per budget, with the
    axis label shortened to twelve characters, and the tooltip's progress
    figure. */
module BudgetChart {
  import opened Text
  import opened Records
  import opened Aggregation
  import Money

  const LabelLength := 12

  /** The axis label: categories longer than twelve characters are cut to
      twelve and get `...`. Characters stand for UTF-16 units here, which
      they are for a category inside the Basic Multilingual Plane. */
  function Label(c: string): (r: string)
    ensures |r| <= LabelLength + 3
    ensures |c| <= LabelLength ==> r == c
    ensures |c| > LabelLength ==> r == c[..LabelLength] + "..." && |r| == LabelLength + 3
    ensures InBmp(c) ==> (|c| > LabelLength <==> Utf16Length(c) > LabelLength)
  {
    BmpLength(c);
    if |c| > LabelLength then Take(c, LabelLength) + "..." else c
  }

  /** Two long categories sharing their first twelve characters get the
      same axis label; the tooltip's full category tells them apart. */
  lemma LabelsCollide(a: string, b: string)
    requires |a| > LabelLength && |b| > LabelLength && a[..LabelLength] == b[..LabelLength]
    ensures Label(a) == Label(b)
  {
  }

  /** Apart from that, labels keep categories apart: short categories are
      their own labels, and a short label never equals a long one's. */
  lemma LabelsSeparate(a: string, b: string)
    requires |a| <= LabelLength || |b| <= LabelLength || a[..LabelLength] != b[..LabelLength]
    ensures Label(a) == Label(b) <==> a == b
  {
  }

  /** One bar group; amounts in cents. */
  datatype Entry = Entry(axisLabel: string, fullCategory: string, budget: int, spent: int, remaining: int)

  /** `budget.spent || 0` on a number that is always present, and
      `Math.max(0, budget.remaining)`. */
  function EntryOf(b: Budget): (e: Entry)
    ensures e.axisLabel == Label(b.category) && e.fullCategory == b.category
    ensures e.budget == b.amount && e.spent == b.spent
    ensures e.remaining >= 0 && e.remaining >= b.remaining
    ensures b.remaining >= 0 ==> e.remaining == b.remaining
  {
    Entry(Label(b.category), b.category, b.amount, b.spent, if b.remaining > 0 then b.remaining else 0)
  }

  /** `chartData`: one entry per budget, in the budgets' order. */
  function ChartData(bs: seq<Budget>): (r: seq<Entry>)
    ensures |r| == |bs|
    ensures forall k :: 0 <= k < |r| ==> r[k] == EntryOf(bs[k])
  {
    seq(|bs|, k requires 0 <= k < |bs| => EntryOf(bs[k]))
  }

  /** JavaScript `Math.round`: the nearest integer, halves rounded up. */
  function Round(x: real): (n: int)
    ensures n as real - 0.5 <= x < n as real + 0.5
  {
    (x + 0.5).Floor
  }

  /** The tooltip's progress: `budget > 0 ? Math.round(spent / budget * 100) : 0`. */
  function Progress(e: Entry): (n: int)
    ensures e.budget <= 0 ==> n == 0
    ensures e.budget > 0 ==>
      var b := e.budget as real;
      (n as real - 0.5) * b <= 100.0 * (e.spent as real) < (n as real + 0.5) * b
  {
    if e.budget > 0 then
      var b := e.budget as real;
      var q := e.spent as real / b * 100.0;
      Money.RatioFacts(e.spent as real, b);
      assert q * b == 100.0 * (e.spent as real);
      var n := Round(q);
      assert n as real - 0.5 <= q < n as real + 0.5;
      Money.ScaleBracket(q, b, n as real - 0.5, n as real + 0.5, 100.0 * (e.spent as real));
      n
    else 0
  }

  /** For a derived budget within its amount, the tooltip's progress is the
      stored percentage rounded. */
  lemma ProgressOfDerived(b: Budget, spent: int)
    requires b.amount > 0 && 0 <= spent <= b.amount
    ensures Progress(EntryOf(WithStatus(b, spent))) == Round(WithStatus(b, spent).percentage)
  {
    var p := WithStatus(b, spent).percentage;
    var a := b.amount as real;
    var s := spent as real;
    var q := s / a * 100.0;
    assert q * a == 100.0 * s;
    assert p * a == 100.0 * s;
    assert q == p by {
      assert (q - p) * a == 0.0;
    }
  }

  /** Unlike the stored percentage, the tooltip's progress runs past 100 for
      an overspent budget: twice the amount spent reads 200. */
  lemma ProgressPastFull(b: Budget)
    requires b.amount > 0
    ensures Progress(EntryOf(WithStatus(b, 2 * b.amount))) == 200
    ensures WithStatus(b, 2 * b.amount).percentage == 100.0
  {
    var a := b.amount as real;
    assert (2 * b.amount) as real / a == 2.0;
  }

  /** For derived budgets the chart's remaining bar is the stored remaining
      amount. */
  lemma ChartRemainingOfDerived(b: Budget, spent: int)
    ensures EntryOf(WithStatus(b, spent)).remaining == WithStatus(b, spent).remaining
  {
  }
}
