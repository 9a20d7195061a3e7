/** The progress indicator of the story viewer: a completion percentage is clamped to
    [0, 100], classified by a threshold table into a stage, and rendered as a status label, a
    badge class and a fill style whose gradient runs from the stage colour to a lighter shade.
    Percentages are integers here. */
module Progress {
  import opened Js

  function Min(a: int, b: int): int { if a <= b then a else b }
  function Max(a: int, b: int): int { if a >= b then a else b }

  /** The completion clamped to [0, 100], with 0 for an absent value. */
  function Normalize(percentage: Option<int>): (n: int)
    ensures 0 <= n <= 100
    ensures percentage.Some? && 0 <= percentage.value <= 100 ==> n == percentage.value
    ensures percentage.None? || percentage.value <= 0 ==> n == 0
    ensures percentage.Some? && percentage.value >= 100 ==> n == 100
  {
    Max(0, Min(100, percentage.GetOr(0)))
  }

  /** The six bands of the threshold table, in increasing order of completion. */
  datatype Stage = NotStarted | JustStarted | InProgress | MakingProgress | AlmostDone | Completed

  /** The band of a normalised percentage: the if-chain of the story viewer. */
  function StageOf(n: int): Stage
    requires 0 <= n <= 100
  {
    if n == 0 then NotStarted
    else if n < 25 then JustStarted
    else if n < 50 then InProgress
    else if n < 75 then MakingProgress
    else if n < 100 then AlmostDone
    else Completed
  }

  /** The position of a band in the table. */
  function Rank(s: Stage): nat {
    match s
    case NotStarted => 0
    case JustStarted => 1
    case InProgress => 2
    case MakingProgress => 3
    case AlmostDone => 4
    case Completed => 5
  }

  /** A larger percentage never falls into an earlier band. */
  lemma StageMonotone(m: int, n: int)
    requires 0 <= m <= n <= 100
    ensures Rank(StageOf(m)) <= Rank(StageOf(n))
  {
  }

  function StatusLabel(s: Stage): string {
    match s
    case NotStarted => "Not Started"
    case JustStarted => "Just Started"
    case InProgress => "In Progress"
    case MakingProgress => "Making Progress"
    case AlmostDone => "Almost Done"
    case Completed => "Completed"
  }

  function BadgeClass(s: Stage): string {
    match s
    case NotStarted => "slds-badge"
    case JustStarted => "slds-badge_warning"
    case _ => "slds-badge_success"
  }

  function FillColor(s: Stage): (c: string)
    ensures IsLowerHexColor(c)
  {
    var c := match s
      case NotStarted => "#e0e5ee"
      case JustStarted => "#fe9339"
      case InProgress => "#ffb75d"
      case MakingProgress => "#1589ee"
      case AlmostDone => "#4bca81"
      case Completed => "#2e844a";
    assert forall i :: 1 <= i < 7 ==> IsLowerHexDigit(c[i]) by {
      assert IsLowerHexDigit(c[1]) && IsLowerHexDigit(c[2]) && IsLowerHexDigit(c[3]);
      assert IsLowerHexDigit(c[4]) && IsLowerHexDigit(c[5]) && IsLowerHexDigit(c[6]);
    }
    c
  }

  /** The object `calculateProgressData` returns. */
  datatype ProgressData = ProgressData(
    progressBarStyle: string,
    progressFillStyle: string,
    progressStatus: string,
    progressBadgeClass: string)

  const BarStyle: string := "background-color: #f3f3f3; border-radius: 6px; overflow: hidden; position: relative;"

  /** The leading width declaration of the fill style. */
  function WidthToken(n: nat): string {
    "width: " + NatToString(n) + "%"
  }

  function FillStyle(n: nat, fill: string): string
    requires IsHexColor(fill)
  {
    WidthToken(n) + "; background: linear-gradient(90deg, " + fill + " 0%, "
    + LightenColor(fill, 20) + " 100%); transition: width 0.3s ease-in-out;"
  }

  /** `calculateProgressData(percentage)`: the fill is as wide as the clamped percentage, and
      status and badge follow the threshold table of the clamped value. */
  function CalculateProgressData(percentage: Option<int>): (d: ProgressData)
    ensures d.progressBarStyle == BarStyle
    ensures WidthToken(Normalize(percentage)) <= d.progressFillStyle
    ensures var n := Normalize(percentage);
      && (d.progressStatus == "Not Started" <==> n == 0)
      && (d.progressStatus == "Just Started" <==> 0 < n < 25)
      && (d.progressStatus == "In Progress" <==> 25 <= n < 50)
      && (d.progressStatus == "Making Progress" <==> 50 <= n < 75)
      && (d.progressStatus == "Almost Done" <==> 75 <= n < 100)
      && (d.progressStatus == "Completed" <==> n == 100)
    ensures var n := Normalize(percentage);
      && (d.progressBadgeClass == "slds-badge" <==> n == 0)
      && (d.progressBadgeClass == "slds-badge_warning" <==> 0 < n < 25)
      && (d.progressBadgeClass == "slds-badge_success" <==> 25 <= n)
  {
    var n := Normalize(percentage);
    var stage := StageOf(n);
    var fill := FillColor(stage);
    ProgressData(BarStyle, FillStyle(n, fill), StatusLabel(stage), BadgeClass(stage))
  }

  // ---------------------------------------------------------------------------
  // Colours: `#rrggbb` strings, parsed with parseInt(_, 16) and formatted with toString(16)

  predicate IsHexDigit(c: char) {
    '0' <= c <= '9' || 'a' <= c <= 'f' || 'A' <= c <= 'F'
  }

  predicate IsLowerHexDigit(c: char) {
    '0' <= c <= '9' || 'a' <= c <= 'f'
  }

  /** A `#` followed by six hexadecimal digits of either case. */
  predicate IsHexColor(color: string) {
    |color| == 7 && color[0] == '#' && forall i :: 1 <= i < 7 ==> IsHexDigit(color[i])
  }

  /** A colour whose digits are all lower case, as `toString(16)` writes them. */
  predicate IsLowerHexColor(color: string) {
    IsHexColor(color) && forall i :: 1 <= i < 7 ==> IsLowerHexDigit(color[i])
  }

  function HexValue(c: char): (v: nat)
    requires IsHexDigit(c)
    ensures v < 16
  {
    if c <= '9' then c as int - '0' as int
    else if 'a' <= c then c as int - 'a' as int + 10
    else c as int - 'A' as int + 10
  }

  function HexChar(v: nat): (c: char)
    requires v < 16
    ensures IsLowerHexDigit(c) && HexValue(c) == v
  {
    if v < 10 then ('0' as int + v) as char else ('a' as int + v - 10) as char
  }

  /** A channel value as two lower-case hexadecimal digits, padded with a leading zero. */
  function ByteToHex(v: nat): (s: string)
    requires v < 256
    ensures |s| == 2 && IsLowerHexDigit(s[0]) && IsLowerHexDigit(s[1])
    ensures 16 * HexValue(s[0]) + HexValue(s[1]) == v
  {
    [HexChar(v / 16), HexChar(v % 16)]
  }

  /** Channel k (red, green, blue) of a colour: the value of its two hexadecimal digits. */
  function Channel(color: string, k: nat): (v: nat)
    requires IsHexColor(color) && k < 3
    ensures v < 256
  {
    16 * HexValue(color[1 + 2 * k]) + HexValue(color[2 + 2 * k])
  }

  /** Lightening one channel, in exact integer arithmetic rounded down and capped at 255: the
      channel moves `percent` per cent of the way towards 255. */
  function LightenChannel(c: nat, percent: nat): (v: nat)
    requires c < 256
    ensures c <= v <= 255
    ensures percent == 0 ==> v == c
    ensures percent >= 100 ==> v == 255
  {
    var gain := (255 - c) * percent;
    GainBounds(255 - c, percent);
    Min(255, (c * 100 + gain) / 100)
  }

  /** The gain `d * percent` is never negative and reaches `d * 100` from 100 per cent on. */
  lemma GainBounds(d: nat, percent: nat)
    ensures d * percent >= 0
    ensures percent >= 100 ==> d * percent >= d * 100
  {
    if percent >= 100 {
      var extra: nat := percent - 100;
      assert d * percent == d * 100 + d * extra;
    }
  }

  /** A colour written out from three channel values. */
  function FormatColor(red: nat, green: nat, blue: nat): (r: string)
    requires red < 256 && green < 256 && blue < 256
    ensures IsLowerHexColor(r)
    ensures Channel(r, 0) == red && Channel(r, 1) == green && Channel(r, 2) == blue
  {
    var rr, gg, bb := ByteToHex(red), ByteToHex(green), ByteToHex(blue);
    var r := "#" + rr + gg + bb;
    assert r[1] == rr[0] && r[2] == rr[1] && r[3] == gg[0];
    assert r[4] == gg[1] && r[5] == bb[0] && r[6] == bb[1];
    assert forall i :: 1 <= i < 7 ==> IsLowerHexDigit(r[i]) by {
      forall i | 1 <= i < 7 ensures IsLowerHexDigit(r[i]) {
        assert i == 1 || i == 2 || i == 3 || i == 4 || i == 5 || i == 6;
      }
    }
    r
  }

  /** `lightenColor(color, percent)`: every channel moves towards 255 and stays in range. */
  function LightenColor(color: string, percent: nat): (r: string)
    requires IsHexColor(color)
    ensures IsLowerHexColor(r)
    ensures forall k :: 0 <= k < 3 ==> Channel(r, k) == LightenChannel(Channel(color, k), percent)
    ensures forall k :: 0 <= k < 3 ==> Channel(color, k) <= Channel(r, k) <= 255
  {
    var r := FormatColor(
      LightenChannel(Channel(color, 0), percent),
      LightenChannel(Channel(color, 1), percent),
      LightenChannel(Channel(color, 2), percent));
    r
  }

  /** Formatting a lower-case channel that was just parsed gives back its two digits. */
  lemma ByteToHexOfChannel(color: string, k: nat)
    requires IsLowerHexColor(color) && k < 3
    ensures ByteToHex(Channel(color, k)) == color[1 + 2 * k..3 + 2 * k]
  {
    var hi, lo := color[1 + 2 * k], color[2 + 2 * k];
    var v := Channel(color, k);
    assert IsLowerHexDigit(hi) && IsLowerHexDigit(lo);
    assert v / 16 == HexValue(hi) && v % 16 == HexValue(lo);
    LowerHexRoundTrip(hi);
    LowerHexRoundTrip(lo);
  }

  lemma LowerHexRoundTrip(c: char)
    requires IsLowerHexDigit(c)
    ensures HexChar(HexValue(c)) == c
  {
  }

  /** Lightening by 0 per cent changes nothing: parsing and formatting a lower-case colour
      are inverse. */
  lemma LightenColorByZero(color: string)
    requires IsLowerHexColor(color)
    ensures LightenColor(color, 0) == color
  {
    ByteToHexOfChannel(color, 0);
    ByteToHexOfChannel(color, 1);
    ByteToHexOfChannel(color, 2);
    assert color == color[..1] + color[1..3] + color[3..5] + color[5..7];
  }

  /** Lightening by 100 per cent or more gives white. */
  lemma LightenColorToWhite(color: string, percent: nat)
    requires IsHexColor(color) && percent >= 100
    ensures LightenColor(color, percent) == "#ffffff"
  {
    assert ByteToHex(255) == "ff";
  }
}
