/** Building one displayed detection record from the inference service's
    `detection` object (`processBackendResponse` in src/App.jsx). */
module Records {
  import opened Wrappers

  /** The label for which the record is highlighted. */
  const StopSign := "Stop Sign"
  /** Shown when the service gives no label or an empty one. */
  const UnknownObject := "Unknown Object"
  /** The time text every record carries. */
  const JustNow := "Just now"
  /** CSS class of a "Stop Sign" record. */
  const StopColor := "text-red-500"
  /** CSS class of every other record. */
  const DefaultColor := "text-[#69c280]"

  /** The service's `detection` object: an optional label (`label`) and the score,
      already scaled to an integer percentage. */
  datatype BackendDetection = BackendDetection(objectLabel: Option<string>, scorePercent: int)

  /** One row of the "Recent Detections" list. `kind` is the source's `type`. */
  datatype Record = Record(id: int, kind: string, confidence: string, time: string, color: string)

  predicate IsDigit(c: char) {
    '0' <= c <= '9'
  }

  function DigitChar(d: nat): (c: char)
    requires d < 10
    ensures IsDigit(c) && c as int - '0' as int == d
  {
    ('0' as int + d) as char
  }

  /** Decimal notation of `n`, most significant digit first, no leading zeros. */
  function DecimalText(n: nat): (s: string)
    ensures |s| >= 1
    ensures forall i :: 0 <= i < |s| ==> IsDigit(s[i])
    ensures s[0] == '0' <==> n == 0
    decreases n
  {
    if n < 10 then [DigitChar(n)] else DecimalText(n / 10) + [DigitChar(n % 10)]
  }

  /** Reads a non-empty string of decimal digits; None on anything else. */
  function ParseDecimal(s: string): (r: Option<nat>)
    decreases |s|
  {
    if s == [] || !IsDigit(s[|s| - 1]) then None
    else
      var d := s[|s| - 1] as int - '0' as int;
      if |s| == 1 then Some(d)
      else match ParseDecimal(s[..|s| - 1])
        case None => None
        case Some(high) => Some(high * 10 + d)
  }

  lemma {:induction false} DecimalRoundTrip(n: nat)
    ensures ParseDecimal(DecimalText(n)) == Some(n)
  {
    if n >= 10 {
      var s := DecimalText(n);
      assert s[..|s| - 1] == DecimalText(n / 10);
      DecimalRoundTrip(n / 10);
    }
  }

  /** Among digit strings without a leading zero (other than "0" itself),
      the decimal text of `n` is the only one that reads as `n`. */
  lemma {:induction false} DecimalCanonical(s: string, n: nat)
    requires s != [] && forall i :: 0 <= i < |s| ==> IsDigit(s[i])
    requires s[0] == '0' ==> |s| == 1
    requires ParseDecimal(s) == Some(n)
    ensures s == DecimalText(n)
    decreases |s|
  {
    if |s| > 1 {
      var front := s[..|s| - 1];
      var d := s[|s| - 1] as int - '0' as int;
      var high := ParseDecimal(front).value;
      assert n == high * 10 + d;
      DecimalCanonical(front, high);
      assert high != 0;
      assert n / 10 == high && n % 10 == d;
      assert s == front + [s[|s| - 1]];
    }
  }

  /** The confidence text `${percent}%`: a '-' exactly for a negative
      percentage, then the decimal text of its magnitude, then '%'. */
  function PercentText(p: int): (r: string)
    ensures |r| >= 2 && r[|r| - 1] == '%'
    ensures r[0] == '-' <==> p < 0
    ensures r[(if p < 0 then 1 else 0)..|r| - 1] == DecimalText(if p < 0 then -p else p)
  {
    (if p < 0 then "-" + DecimalText(-p) else DecimalText(p)) + "%"
  }

  /** Reads back a confidence text: an optional '-', digits, then '%'. */
  function ParsePercent(s: string): (r: Option<int>) {
    if s == [] || s[|s| - 1] != '%' then None
    else
      var body := s[..|s| - 1];
      if body != [] && body[0] == '-' then
        match ParseDecimal(body[1..])
        case None => None
        case Some(n) => Some(0 - n as int)
      else ParseDecimal(body)
  }

  /** The confidence text always reads back as the percentage it was made from. */
  lemma PercentRoundTrip(p: int)
    ensures ParsePercent(PercentText(p)) == Some(p)
  {
    var digits := if p < 0 then DecimalText(-p) else DecimalText(p);
    var s := PercentText(p);
    assert s[..|s| - 1] == (if p < 0 then "-" + digits else digits);
    if p < 0 {
      assert ("-" + digits)[1..] == digits;
      DecimalRoundTrip(-p);
    } else {
      assert digits[0] != '-';
      DecimalRoundTrip(p);
    }
  }

  /** `processBackendResponse`: the id is the clock reading `now`, the label
      falls back to "Unknown Object", the colour marks exactly "Stop Sign",
      the time is "Just now" and the confidence text carries the score. */
  function ProcessBackendResponse(d: BackendDetection, now: int): (r: Record)
    ensures r.id == now
    ensures r.kind != []
    ensures d.objectLabel.Some? && d.objectLabel.value != [] ==> r.kind == d.objectLabel.value
    ensures d.objectLabel.None? || d.objectLabel.value == [] ==> r.kind == UnknownObject
    ensures r.color == StopColor <==> d.objectLabel == Some(StopSign)
    ensures r.color == StopColor || r.color == DefaultColor
    ensures r.time == JustNow
    ensures r.confidence == PercentText(d.scorePercent)
    ensures ParsePercent(r.confidence) == Some(d.scorePercent)
  {
    PercentRoundTrip(d.scorePercent);
    var kind := if d.objectLabel.Some? && d.objectLabel.value != [] then d.objectLabel.value else UnknownObject;
    var color := if d.objectLabel == Some(StopSign) then StopColor else DefaultColor;
    Record(now, kind, PercentText(d.scorePercent), JustNow, color)
  }

  /** The example of a 0.98 "Stop Sign" score: "98%", highlighted. */
  lemma StopSignExample(now: int)
    ensures ProcessBackendResponse(BackendDetection(Some(StopSign), 98), now)
         == Record(now, StopSign, "98%", JustNow, StopColor)
  {
  }
}
