/**
 * What the result view shows of an Outcome: the two headline figures, and the
 * itemised breakdown, which is shown only when the total deduction is positive
 * and lists only the lines of positive amount, in insertion order, each as
 * whole won.
 */
module Display {
  import opened Deductions

  /** A breakdown entry as shown: its label and its amount in whole won. */
  datatype Shown = Shown(key: string, won: int)

  /** The headline figures: net pay and total deduction, each passed through int(). */
  function Headline(r: Outcome): (h: (int, int))
    ensures r.netPay >= 0.0 ==> h.0 as real <= r.netPay < h.0 as real + 1.0
    ensures r.netPay < 0.0 ==> r.netPay <= h.0 as real < r.netPay + 1.0
    ensures r.totalDeduction >= 0.0 ==> h.1 as real <= r.totalDeduction < h.1 as real + 1.0
    ensures r.totalDeduction < 0.0 ==> r.totalDeduction <= h.1 as real < r.totalDeduction + 1.0
  {
    (Trunc(r.netPay), Trunc(r.totalDeduction))
  }

  /** The lines of positive amount, in order, each truncated to whole won. */
  function Visible(lines: seq<Line>): (v: seq<Shown>)
    ensures |v| <= |lines|
  {
    if lines == [] then []
    else
      (if lines[0].amount > 0.0 then [Shown(lines[0].key, Trunc(lines[0].amount))] else [])
      + Visible(lines[1..])
  }

  /** The loop over the breakdown: every line of positive amount is shown, in
      order, and nothing else; no breakdown at all unless the total is positive. */
  method ItemisedBreakdown(r: Outcome) returns (shown: seq<Shown>)
    ensures r.totalDeduction <= 0.0 ==> shown == []
    ensures r.totalDeduction > 0.0 ==> shown == Visible(r.deductions)
  {
    shown := [];
    if r.totalDeduction > 0.0 {
      var lines := r.deductions;
      for i := 0 to |lines|
        invariant shown == Visible(lines[..i])
      {
        var line := lines[i];
        if line.amount > 0.0 {
          shown := shown + [Shown(line.key, Trunc(line.amount))];
        }
        VisibleAppend(lines[..i], [line]);
        assert lines[..i + 1] == lines[..i] + [line];
        VisibleOne(line);
      }
      assert lines[..|lines|] == lines;
    }
  }

  lemma VisibleOne(line: Line)
    ensures Visible([line]) ==
      if line.amount > 0.0 then [Shown(line.key, Trunc(line.amount))] else []
  {
    assert [line][1..] == [];
  }

  /** Filtering keeps insertion order: it distributes over concatenation. */
  lemma {:induction false} VisibleAppend(a: seq<Line>, b: seq<Line>)
    ensures Visible(a + b) == Visible(a) + Visible(b)
  {
    if a == [] {
      assert a + b == b;
    } else {
      assert (a + b)[1..] == a[1..] + b;
      VisibleAppend(a[1..], b);
    }
  }

  /** Everything shown comes from a line of positive amount, truncated. */
  lemma {:induction false} VisibleSound(lines: seq<Line>, k: nat)
    requires k < |Visible(lines)|
    ensures exists j :: 0 <= j < |lines| && lines[j].amount > 0.0
                        && Visible(lines)[k] == Shown(lines[j].key, Trunc(lines[j].amount))
  {
    var head := if lines[0].amount > 0.0 then [Shown(lines[0].key, Trunc(lines[0].amount))] else [];
    if k < |head| {
      assert lines[0].amount > 0.0;
    } else {
      VisibleSound(lines[1..], k - |head|);
      var j :| 0 <= j < |lines[1..]| && lines[1..][j].amount > 0.0
               && Visible(lines[1..])[k - |head|] == Shown(lines[1..][j].key, Trunc(lines[1..][j].amount));
      assert lines[j + 1] == lines[1..][j];
    }
  }

  /** Every line of positive amount is shown, truncated to whole won. */
  lemma {:induction false} VisibleComplete(lines: seq<Line>, j: nat)
    requires j < |lines| && lines[j].amount > 0.0
    ensures Shown(lines[j].key, Trunc(lines[j].amount)) in Visible(lines)
  {
    if j > 0 {
      VisibleComplete(lines[1..], j - 1);
      assert lines[1..][j - 1] == lines[j];
    }
  }

  /** Lines of zero amount are never shown, although they count in the total. */
  lemma {:induction false} ZeroLinesHidden(lines: seq<Line>)
    requires forall k :: 0 <= k < |lines| ==> lines[k].amount <= 0.0
    ensures Visible(lines) == []
  {
    if lines != [] {
      ZeroLinesHidden(lines[1..]);
    }
  }

  /** Standard scheme without insurance: neither pension nor health + care is shown. */
  lemma NoInsuranceLinesShown(input: Input)
    requires input.scheme == Standard && !input.applyInsurance
    ensures forall s :: s in Visible(Calculate(input).deductions) ==>
              s.key != PensionLabel && s.key != HealthLabel
  {
    var lines := Calculate(input).deductions;
    StandardShape(input);
    forall s | s in Visible(lines)
      ensures s.key != PensionLabel && s.key != HealthLabel
    {
      var k :| 0 <= k < |Visible(lines)| && Visible(lines)[k] == s;
      VisibleSound(lines, k);
      var j :| 0 <= j < |lines| && Visible(lines)[k] == Shown(lines[j].key, Trunc(lines[j].amount));
      assert Labels(lines)[j] == lines[j].key;
    }
  }

  /** 100,000 won a day for 10 days without insurance: only employment insurance
      is itemised; the zero income-tax line is hidden. */
  lemma StandardWithoutInsuranceShown()
    ensures var r := Calculate(Input(100000, 10.0, Standard, false));
      Visible(r.deductions) == [Shown(EmploymentLabel, 9000)]
      && Headline(r) == (991000, 9000)
  {
    StandardWithoutInsuranceCase();
    var r := Calculate(Input(100000, 10.0, Standard, false));
    VisibleAppend([r.deductions[0]], [r.deductions[1]]);
    VisibleOne(r.deductions[0]);
    VisibleOne(r.deductions[1]);
    assert r.deductions == [r.deductions[0]] + [r.deductions[1]];
  }

  /** A flat total with a fraction of a won is shown truncated. */
  lemma FlatFractionShownTruncated()
    ensures var r := Calculate(Input(10, 1.0, Flat33, false));
      Visible(r.deductions) == [Shown(FlatLabel, 0)]
      && Headline(r) == (9, 0)
  {
    var r := Calculate(Input(10, 1.0, Flat33, false));
    FlatTotalMayBeFractional();
    VisibleOne(r.deductions[0]);
  }
}
