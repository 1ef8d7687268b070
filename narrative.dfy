/**
 * The auto-narrative helpers of the dashboard
 * (streamlit_app/utils/narrative.py): sign classification, NaN/inf
 * sanitising, the "N/A" cases of number formatting, and the five narrative
 * builders. A narrative line is a sequence of parts (text, a formatted
 * number, a direction word, a count, a segment name) rather than rendered
 * text.
 */
module Narrative {
  import opened Wrappers

  /** A Python float: finite, NaN, or an infinity. */
  datatype Float = Finite(r: real) | NaN | PosInf | NegInf

  /**
   * A Python argument: None, a number (an int or a float), or another object
   * whose float() conversion gives a value or raises (None).
   */
  datatype PyValue = PyNone | PyNum(f: Float) | PyOther(conversion: Option<Float>)

  datatype Direction = Positive | Negative | Neutral | Unknown

  /** Reference sign classification of a finite number. */
  function Sign(v: real): Direction {
    if v > 0.0 then Positive else if v < 0.0 then Negative else Neutral
  }

  /** _direction(x), for x None or a number. */
  function DirectionOf(x: Option<Float>): (d: Direction)
    ensures d == Unknown <==> x.None? || x.value.NaN?
    ensures x.Some? && x.value.Finite? ==> d == Sign(x.value.r)
  {
    match x
    case None => Unknown
    case Some(f) =>
      match f
      case NaN => Unknown
      case PosInf => Positive
      case NegInf => Negative
      case Finite(r) => if r > 0.0 then Positive else if r < 0.0 then Negative else Neutral
  }

  /** float(x): None when the conversion raises. */
  function ToFloat(x: PyValue): Option<Float> {
    match x
    case PyNone => None
    case PyNum(f) => Some(f)
    case PyOther(c) => c
  }

  /** The argument converts to a finite float. */
  predicate IsFiniteNumber(x: PyValue) {
    ToFloat(x).Some? && ToFloat(x).value.Finite?
  }

  /** _safe_float(x, default): the finite value of x, else default (None, NaN, inf, unconvertible). */
  function SafeFloat(x: PyValue, default: real := 0.0): (v: real)
    ensures IsFiniteNumber(x) ==> v == ToFloat(x).value.r
    ensures !IsFiniteNumber(x) ==> v == default
  {
    match x
    case PyNone => default
    case _ =>
      match ToFloat(x)
      case None => default
      case Some(f) => if f.Finite? then f.r else default
  }

  /** Sanitising is idempotent, and a sanitised value is never classified Unknown. */
  lemma SafeFloatSanitises(x: PyValue, default: real)
    ensures SafeFloat(PyNum(Finite(SafeFloat(x, default))), default) == SafeFloat(x, default)
    ensures DirectionOf(Some(Finite(SafeFloat(x, default)))) == Sign(SafeFloat(x, default))
    ensures DirectionOf(Some(Finite(SafeFloat(x, default)))) != Unknown
    ensures x == PyNone || x == PyNum(NaN) || x == PyNum(PosInf) || x == PyNum(NegInf) || x == PyOther(None)
      ==> SafeFloat(x, default) == default
  {
  }

  /** The shown form of a number: "N/A", or the number with a precision. */
  datatype Shown = NA | Fixed(value: Float, decimals: nat)

  /**
   * _fmt_num(x, decimals), up to the digit rendering: "N/A" for None, a NaN
   * or infinite float, a failed conversion, or a negative precision (an
   * invalid format specification).
   */
  function FmtNum(x: PyValue, decimals: int := 0): (t: Shown)
    ensures x.PyNone? ==> t == NA
    ensures x.PyNum? && !x.f.Finite? ==> t == NA
    ensures decimals < 0 ==> t == NA
    ensures t.Fixed? <==> decimals >= 0 && ToFloat(x).Some? && (x.PyNum? ==> x.f.Finite?)
    ensures t.Fixed? ==> ToFloat(x) == Some(t.value) && t.decimals == decimals
  {
    match x
    case PyNone => NA
    case PyNum(f) => if !f.Finite? || decimals < 0 then NA else Fixed(f, decimals)
    case PyOther(c) => if c.None? || decimals < 0 then NA else Fixed(c.value, decimals)
  }

  /** A sanitised number is always shown, never "N/A". */
  lemma FmtNumOfSanitised(x: PyValue, decimals: nat)
    ensures FmtNum(PyNum(Finite(SafeFloat(x))), decimals) == Fixed(Finite(SafeFloat(x)), decimals)
  {
  }

  /** The long fixed sentences of the narratives; their wording is not modelled. */
  datatype Note = LowValueCaution | NonActiveCaution | RfmRankingNote

  datatype Part =
    | Lit(text: string)
    | Num(shown: Shown)
    | Dir(direction: Direction)
    | Count(n: int)
    | Name(name: string)
    | Remark(note: Note)
    /** The literal "N/A" printed in place of a percentage that has no denominator. */
    | NotAvailable

  type Line = seq<Part>

  /** The page a narrative belongs to; it fixes the recommendation and caveat texts. */
  datatype Page = SummaryPage | ValueSplitPage | ActivityPage | RfmPage | DiagnosticsPage

  datatype Narrative = Narrative(headline: Line, bullets: seq<Line>, page: Page)

  /** A finite Python float. */
  function Num0(v: real, decimals: nat := 0): Part {
    Num(FmtNum(PyNum(Finite(v)), decimals))
  }

  function DirOf(v: real): Part {
    Dir(DirectionOf(Some(Finite(v))))
  }

  /** narrative_summary: the headline carries the sign of the sanitised incremental revenue. */
  function NarrativeSummary(totalIncRev: PyValue, totalIncTxn: PyValue, avgDeltaAov: PyValue, topSegment: string)
    : (n: Narrative)
    ensures |n.bullets| == 3
    ensures Dir(Sign(SafeFloat(totalIncRev))) in n.headline && Dir(Unknown) !in n.headline
    ensures Dir(Sign(SafeFloat(totalIncTxn))) in n.bullets[0]
    ensures Name(topSegment) in n.bullets[2]
  {
    var rev := SafeFloat(totalIncRev);
    var txn := SafeFloat(totalIncTxn);
    var aov := SafeFloat(avgDeltaAov);
    Narrative(
      [Lit("Overall incrementality is "), DirOf(rev), Lit(" ("), Num0(rev), Lit(" in incremental revenue).")],
      [[Lit("Incremental transactions: "), Num0(txn), Lit(" (direction: "), DirOf(txn), Lit(").")],
       [Lit("Average delta AOV: "), Num0(aov, 2), Lit(".")],
       [Lit("Top contributing RFM segment: **"), Name(topSegment), Lit("**.")]],
      SummaryPage)
  }

  /** narrative_value_split: the headline carries the sign of the sanitised overall figure. */
  function NarrativeValueSplit(incAll: PyValue, incHv: PyValue, incLv: PyValue,
                               hvLabel: string := "High Value", lvLabel: string := "Low Value")
    : (n: Narrative)
    ensures |n.bullets| == 3
    ensures Dir(Sign(SafeFloat(incAll))) in n.headline && Dir(Unknown) !in n.headline
    ensures Name(hvLabel) in n.bullets[0] && Dir(Sign(SafeFloat(incHv))) in n.bullets[0]
    ensures Name(lvLabel) in n.bullets[1] && Dir(Sign(SafeFloat(incLv))) in n.bullets[1]
  {
    var all := SafeFloat(incAll);
    var hv := SafeFloat(incHv);
    var lv := SafeFloat(incLv);
    Narrative(
      [Lit("Incremental revenue by customer value is "), DirOf(all), Lit(" overall ("), Num0(all), Lit(").")],
      [[Name(hvLabel), Lit(": "), Num0(hv), Lit(" (direction: "), DirOf(hv), Lit(").")],
       [Name(lvLabel), Lit(": "), Num0(lv), Lit(" (direction: "), DirOf(lv), Lit(").")],
       [Remark(LowValueCaution)]],
      ValueSplitPage)
  }

  /** narrative_active_vs_nonactive: the headline carries the signs of both sanitised revenue figures. */
  function NarrativeActiveVsNonActive(activeRev: PyValue, nonactiveRev: PyValue,
                                      activeTxn: PyValue, nonactiveTxn: PyValue)
    : (n: Narrative)
    ensures |n.bullets| == 3
    ensures Dir(Sign(SafeFloat(activeRev))) in n.headline && Dir(Sign(SafeFloat(nonactiveRev))) in n.headline
    ensures Dir(Unknown) !in n.headline
    ensures Dir(Sign(SafeFloat(activeTxn))) in n.bullets[0] && Dir(Sign(SafeFloat(nonactiveTxn))) in n.bullets[1]
  {
    var aRev := SafeFloat(activeRev);
    var nRev := SafeFloat(nonactiveRev);
    var aTxn := SafeFloat(activeTxn);
    var nTxn := SafeFloat(nonactiveTxn);
    Narrative(
      [Lit("Active group is "), DirOf(aRev), Lit(" ("), Num0(aRev), Lit("), "),
       Lit("Non-Active is "), DirOf(nRev), Lit(" ("), Num0(nRev), Lit(").")],
      [[Lit("Active incremental transactions: "), Num0(aTxn), Lit(" (direction: "), DirOf(aTxn), Lit(").")],
       [Lit("Non-Active incremental transactions: "), Num0(nTxn), Lit(" (direction: "), DirOf(nTxn), Lit(").")],
       [Remark(NonActiveCaution)]],
      ActivityPage)
  }

  /** share = top_rev / total_rev if total_rev != 0 else None, on the sanitised figures. */
  function RfmShare(topRev: PyValue, totalRev: PyValue): (share: Option<real>)
    ensures share.None? <==> SafeFloat(totalRev) == 0.0
    ensures share.Some? ==> share.value * SafeFloat(totalRev) == SafeFloat(topRev)
  {
    var top := SafeFloat(topRev);
    var total := SafeFloat(totalRev);
    if total != 0.0 then Some(top / total) else None
  }

  /** f"{_fmt_num(p * 100, 1)}%" if p is not None else "N/A". */
  function PercentText(p: Option<real>): Line {
    if p.Some? then [Num0(p.value * 100.0, 1), Lit("%")] else [NotAvailable]
  }

  /** The figure of an optional sanitised value: None is passed on as None. */
  function OptionalNumber(v: Option<real>): PyValue {
    if v.Some? then PyNum(Finite(v.value)) else PyNone
  }

  /**
   * narrative_rfm: the headline shows the share, or "N/A" when the total is
   * zero; a third bullet on the weakest segment appears iff it is given.
   */
  function NarrativeRfm(topSeg: string, topRev: PyValue, totalRev: PyValue,
                        bottomSeg: Option<string> := None, bottomRev: PyValue := PyNone)
    : (n: Narrative)
    ensures |n.bullets| == 2 + (if bottomSeg.Some? then 1 else 0)
    ensures Name(topSeg) in n.headline
    ensures RfmShare(topRev, totalRev).None? ==> NotAvailable in n.headline
    ensures RfmShare(topRev, totalRev).Some? ==>
      Num(Fixed(Finite(RfmShare(topRev, totalRev).value * 100.0), 1)) in n.headline
    ensures bottomSeg.Some? ==> Name(bottomSeg.value) in n.bullets[2]
    ensures bottomSeg.Some? && bottomRev == PyNone ==> Num(NA) in n.bullets[2] && Dir(Unknown) in n.bullets[2]
    ensures bottomSeg.Some? && bottomRev != PyNone ==> Dir(Sign(SafeFloat(bottomRev))) in n.bullets[2]
  {
    var top := SafeFloat(topRev);
    var total := SafeFloat(totalRev);
    var bottomVal: Option<real> := if bottomRev != PyNone then Some(SafeFloat(bottomRev)) else None;
    var share := RfmShare(topRev, totalRev);
    var headline := [Lit("Top RFM segment is **"), Name(topSeg), Lit("** with "), Num0(top),
                     Lit(" incremental revenue (share: ")] + PercentText(share) + [Lit(").")];
    var bullets := [[Lit("Total incremental revenue across segments: "), Num0(total), Lit(".")],
                    [Remark(RfmRankingNote)]];
    var weakest := if bottomSeg.Some? then
                     [[Lit("Weakest segment: **"), Name(bottomSeg.value), Lit("** with "),
                       Num(FmtNum(OptionalNumber(bottomVal))), Lit(" (direction: "),
                       Dir(DirectionOf(ToFloat(OptionalNumber(bottomVal)))), Lit(").")]]
                   else [];
    assert headline[1] == Name(topSeg);
    assert PercentText(share)[0] == headline[5];
    Narrative(headline, bullets + weakest, RfmPage)
  }

  /** zero_count / rows if rows else None. */
  function ZeroShare(count: int, rows: int): (p: Option<real>)
    ensures p.None? <==> rows == 0
    ensures p.Some? ==> p.value * (rows as real) == count as real
  {
    if rows != 0 then Some(count as real / rows as real) else None
  }

  /** int(x) if x is not None else 0. */
  function CountOrZero(x: Option<int>): int {
    if x.Some? then x.value else 0
  }

  /** "Zero <which> revenue rows: <count> (<percentage or N/A>)." */
  function ZeroRowsBullet(which: string, count: int, pct: Option<real>): (line: Line)
    ensures Count(count) in line
    ensures NotAvailable in line <==> pct.None?
  {
    var line := [Lit("Zero " + which + " revenue rows: "), Count(count), Lit(" (")] + PercentText(pct) + [Lit(").")];
    assert line[1] == Count(count) && line[3] == PercentText(pct)[0];
    line
  }

  /**
   * narrative_diagnostics: missing counts read as 0, the zero-revenue
   * percentages are "N/A" iff there are no rows, and a median bullet
   * appears iff a median is given.
   */
  function NarrativeDiagnostics(rows: Option<int>, customers: Option<int>, zeroPre: Option<int>,
                                zeroPost: Option<int>, incRevMedian: PyValue := PyNone)
    : (n: Narrative)
    ensures |n.bullets| == 2 + (if incRevMedian != PyNone then 1 else 0)
    ensures Count(CountOrZero(rows)) in n.headline && Count(CountOrZero(customers)) in n.headline
    ensures Count(CountOrZero(zeroPre)) in n.bullets[0] && Count(CountOrZero(zeroPost)) in n.bullets[1]
    ensures CountOrZero(rows) == 0 <==> NotAvailable in n.bullets[0]
    ensures CountOrZero(rows) == 0 <==> NotAvailable in n.bullets[1]
    ensures incRevMedian != PyNone ==> Num(Fixed(Finite(SafeFloat(incRevMedian)), 2)) in n.bullets[2]
  {
    var r := CountOrZero(rows);
    var c := CountOrZero(customers);
    var zp := CountOrZero(zeroPre);
    var zq := CountOrZero(zeroPost);
    var prePct := ZeroShare(zp, r);
    var postPct := ZeroShare(zq, r);
    var headline := [Lit("Coverage check: "), Count(r), Lit(" rows, "), Count(c), Lit(" unique customers.")];
    var pre := ZeroRowsBullet("PRE", zp, prePct);
    var post := ZeroRowsBullet("POST", zq, postPct);
    var median := if incRevMedian != PyNone then
                    [[Lit("Median incremental revenue: "), Num0(SafeFloat(incRevMedian), 2), Lit(".")]]
                  else [];
    assert headline[1] == Count(r) && headline[3] == Count(c);
    Narrative(headline, [pre, post] + median, DiagnosticsPage)
  }

  /** _direction covers every number: Unknown exactly for None and NaN, infinities by their sign. */
  lemma DirectionCases(x: Option<Float>)
    ensures x == Some(PosInf) ==> DirectionOf(x) == Positive
    ensures x == Some(NegInf) ==> DirectionOf(x) == Negative
    ensures x == Some(Finite(0.0)) ==> DirectionOf(x) == Neutral
    ensures DirectionOf(x) == Unknown <==> x == None || x == Some(NaN)
  {
  }
}
