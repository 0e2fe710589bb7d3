/**
 * The fill-level classifier: the status label and colour the screens show
 * for a bin's fill level (a percentage). The admin screen and the bin list
 * of the public screen label levels with thresholds 90, 80 and 50; the
 * public screen colours bins and words its advice with thresholds 90, 70
 * and 50. Every threshold is inclusive at its lower end.
 */
module FillLevel {

  import Text

  const Critical := "CRITICAL"
  const Full := "FULL"
  const HalfFull := "HALF FULL"
  const Available := "AVAILABLE"

  /** `getStatusText` (admin screen) and `getBinStatusText` (public screen). */
  function StatusText(level: int): string {
    if level >= 90 then Critical
    else if level >= 80 then Full
    else if level >= 50 then HalfFull
    else Available
  }

  /** `getStatusColor` (admin screen). */
  function StatusColor(level: int): string {
    if level >= 90 then "#D32F2F"
    else if level >= 80 then "#F44336"
    else if level >= 50 then "#FF9800"
    else "#4CAF50"
  }

  /** How urgent a status label is, 0 (available) to 3 (critical). */
  function Severity(status: string): nat {
    if status == Critical then 3
    else if status == Full then 2
    else if status == HalfFull then 1
    else 0
  }

  /** Every level gets exactly one of the four labels, and the boundaries fall as documented. */
  lemma {:induction false} StatusTextTiers(level: int)
    ensures StatusText(level) in {Critical, Full, HalfFull, Available}
    ensures StatusText(level) == Critical <==> level >= 90
    ensures StatusText(level) == Full <==> 80 <= level < 90
    ensures StatusText(level) == HalfFull <==> 50 <= level < 80
    ensures StatusText(level) == Available <==> level < 50
    ensures StatusText(89) == Full && StatusText(90) == Critical
    ensures StatusText(49) == Available && StatusText(50) == HalfFull
  {
  }

  /** A fuller bin is never shown with a less urgent label. */
  lemma {:induction false} StatusTextMonotone(a: int, b: int)
    requires a <= b
    ensures Severity(StatusText(a)) <= Severity(StatusText(b))
  {
  }

  /**
   * The label and the colour of the admin screen switch at the same levels:
   * two levels share a label exactly when they share a colour.
   */
  lemma {:induction false} TextAndColorAgree(a: int, b: int)
    ensures StatusText(a) == StatusText(b) <==> StatusColor(a) == StatusColor(b)
  {
    assert Critical != Full && Critical != HalfFull && Critical != Available by {
      assert Critical[0] == 'C' && Full[0] == 'F' && HalfFull[0] == 'H' && Available[0] == 'A';
    }
    assert Full != HalfFull && Full != Available && HalfFull != Available by {
      assert Full[0] == 'F' && HalfFull[0] == 'H' && Available[0] == 'A';
    }
    assert "#D32F2F"[1] == 'D' && "#F44336"[1] == 'F' && "#FF9800"[1] == 'F' && "#4CAF50"[1] == '4';
    assert "#F44336"[2] == '4' && "#FF9800"[2] == 'F';
  }

  /** `getBinStatusColor` (public screen): red, orange, yellow, green at 90 / 70 / 50. */
  function PublicColor(level: int): string {
    if level >= 90 then "#F44336"
    else if level >= 70 then "#FF9800"
    else if level >= 50 then "#FFC107"
    else "#4CAF50"
  }

  /** `getBinRecommendation` (public screen): advice worded by the same 90 / 70 / 50 bands. */
  function Recommendation(level: int, binType: string): string {
    if level >= 90 then "\U{1F6A8} CRITICAL: " + binType + " bin is full! Please find an alternative bin."
    else if level >= 70 then "\U{26A0}\U{FE0F} HIGH: " + binType + " bin is almost full. Consider using another bin."
    else if level >= 50 then "\U{1F4CA} MEDIUM: " + binType + " bin is half full. Still usable."
    else "\U{2705} GOOD: " + binType + " bin has plenty of space available."
  }

  /** The public screen's four bands, 0 (below 50) to 3 (90 and above). */
  function PublicBand(level: int): int {
    if level >= 90 then 3 else if level >= 70 then 2 else if level >= 50 then 1 else 0
  }

  /** The public colour and the public advice for one bin type switch at the same levels. */
  lemma {:induction false} PublicColorAndAdviceAgree(a: int, b: int, binType: string)
    ensures PublicColor(a) == PublicColor(b) <==> Recommendation(a, binType) == Recommendation(b, binType)
  {
    ColorFollowsBand(a, b);
    AdviceFollowsBand(a, b, binType);
  }

  lemma {:induction false} ColorFollowsBand(a: int, b: int)
    ensures PublicColor(a) == PublicColor(b) <==> PublicBand(a) == PublicBand(b)
  {
    assert "#F44336"[1] == 'F' && "#FF9800"[1] == 'F' && "#FFC107"[1] == 'F' && "#4CAF50"[1] == '4';
    assert "#F44336"[2] == '4' && "#FF9800"[2] == 'F' && "#FFC107"[2] == 'F';
    assert "#FF9800"[3] == '9' && "#FFC107"[3] == 'C';
  }

  lemma {:induction false} AdviceFollowsBand(a: int, b: int, binType: string)
    ensures Recommendation(a, binType) == Recommendation(b, binType) <==> PublicBand(a) == PublicBand(b)
  {
    if PublicBand(a) != PublicBand(b) {
      AdviceOpensWithMark(a, binType);
      AdviceOpensWithMark(b, binType);
    }
  }

  lemma {:induction false} AdviceOpensWithMark(level: int, binType: string)
    ensures |Recommendation(level, binType)| > 0 && Recommendation(level, binType)[0] == BandMark(level)
  {
  }

  /** The emoji the advice of each band opens with. */
  function BandMark(level: int): char {
    if level >= 90 then '\U{1F6A8}'
    else if level >= 70 then '\U{26A0}'
    else if level >= 50 then '\U{1F4CA}'
    else '\U{2705}'
  }

  /** The advice always names the bin's type. */
  lemma {:induction false} AdviceNamesBinType(level: int, binType: string)
    ensures Text.Includes(Recommendation(level, binType), binType)
  {
    var r := Recommendation(level, binType);
    var n := if level >= 90 then |"\U{1F6A8} CRITICAL: "|
             else if level >= 70 then |"\U{26A0}\U{FE0F} HIGH: "|
             else if level >= 50 then |"\U{1F4CA} MEDIUM: "|
             else |"\U{2705} GOOD: "|;
    assert r[n..n + |binType|] == binType;
    assert Text.OccursAt(r, binType, n);
  }

  /**
   * Where the two screens agree and where they do not: the public screen
   * colours a bin red exactly when it is labelled CRITICAL and green exactly
   * when it is labelled AVAILABLE, but between 70 and 79 it already shows the
   * "almost full" orange for a bin labelled HALF FULL.
   */
  lemma {:induction false} PublicBandsAgainstTiers(level: int)
    ensures PublicColor(level) == "#F44336" <==> StatusText(level) == Critical
    ensures PublicColor(level) == "#4CAF50" <==> StatusText(level) == Available
    ensures 70 <= level < 80 ==> PublicColor(level) == "#FF9800" && StatusText(level) == HalfFull
  {
    assert "#F44336"[1] == 'F' && "#FF9800"[1] == 'F' && "#FFC107"[1] == 'F' && "#4CAF50"[1] == '4';
    assert "#F44336"[2] == '4' && "#FF9800"[2] == 'F' && "#FFC107"[2] == 'F';
  }
}
