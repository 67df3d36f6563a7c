/**
 * Calendar notions shared by the calibration, KPI and feature code: the
 * season phase of a kickoff month and the `YYYY/YY` season label.
 */
module Calendar {
  import opened Text

  /** `datetime.month`. */
  type Month = m: int | 1 <= m <= 12 witness 1

  datatype Phase = Early | Mid | Late

  function PhaseName(p: Phase): string
  {
    match p
      case Early => "early"
      case Mid => "mid"
      case Late => "late"
  }

  /** August to October is early season, November to February mid, March to July late. */
  function PhaseOfMonth(m: Month): (p: Phase)
    ensures p == Early <==> 8 <= m <= 10
    ensures p == Mid <==> (m >= 11 || m <= 2)
    ensures p == Late <==> 3 <= m <= 7
  {
    if 8 <= m <= 10 then Early
    else if m == 11 || m == 12 || m == 1 || m == 2 then Mid
    else Late
  }

  /** `f"{start}/{str(start + 1)[-2:]}"`. */
  function SeasonLabel(start: int): string
  {
    IntToString(start) + "/" + Last2(IntToString(start + 1))
  }

  /** The last two characters of `str(n)` for `n >= 10` are its tens and units digits. */
  lemma Last2OfNat(n: nat)
    requires n >= 10
    ensures Last2(NatToString(n)) == [DigitChar((n / 10) % 10), DigitChar(n % 10)]
  {
    var tens := NatToString(n / 10);
    assert NatToString(n) == tens + [DigitChar(n % 10)];
    if n / 10 >= 10 {
      assert tens == NatToString(n / 100) + [DigitChar((n / 10) % 10)];
    } else {
      assert tens == [DigitChar(n / 10)];
    }
  }

  /** For a four-digit start year the label is the year, a slash and the next year's last two digits. */
  lemma SeasonLabelOfYear(start: int)
    requires 1000 <= start <= 9998
    ensures SeasonLabel(start) == NatToString(start) + "/" + [DigitChar(((start + 1) / 10) % 10), DigitChar((start + 1) % 10)]
    ensures |SeasonLabel(start)| == 7
  {
    Last2OfNat(start + 1);
    FourDigits(start);
  }

  /** Different start years get different labels, so a label names one season. */
  lemma SeasonLabelInjective(a: int, b: int)
    requires 1000 <= a <= 9998 && 1000 <= b <= 9998 && a != b
    ensures SeasonLabel(a) != SeasonLabel(b)
  {
    SeasonLabelOfYear(a);
    SeasonLabelOfYear(b);
    FourDigits(a);
    FourDigits(b);
    assert SeasonLabel(a)[..4] == NatToString(a);
    assert SeasonLabel(b)[..4] == NatToString(b);
  }

  lemma FourDigits(n: nat)
    requires 1000 <= n <= 9999
    ensures |NatToString(n)| == 4
  {
    assert |NatToString(n / 1000)| == 1;
    assert |NatToString(n / 100)| == |NatToString(n / 1000)| + 1;
    assert |NatToString(n / 10)| == |NatToString(n / 100)| + 1;
    assert |NatToString(n)| == |NatToString(n / 10)| + 1;
  }
}
