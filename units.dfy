/**
  The two value formatters of the tables: byte counts scaled by 1000 to
  B/KB/MB/GB, and times in milliseconds.
*/
module Units {
  import opened Wrappers
  import opened Text

  /** 1000 to the power k. */
  function Pow1000(k: nat): (p: nat)
    ensures p >= 1
  {
    if k == 0 then 1 else 1000 * Pow1000(k - 1)
  }

  /** `unit[k]` of `['B', 'KB', 'MB', 'GB']`; past the end JavaScript reads
      `undefined`, which the template literal prints as that word. */
  function UnitName(k: nat): string {
    if k == 0 then "B"
    else if k == 1 then "KB"
    else if k == 2 then "MB"
    else if k == 3 then "GB"
    else "undefined"
  }

  /** The number of divisions by 1000 still to come once k have been made. */
  function UnitIndexFrom(data: int, k: nat): (r: nat)
    ensures r >= k
    ensures data <= 1000 * Pow1000(r)
    ensures forall j :: k <= j < r ==> data > 1000 * Pow1000(j)
    decreases data - Pow1000(k)
  {
    if data > 1000 * Pow1000(k) then UnitIndexFrom(data, k + 1) else k
  }

  /** How often `getUnitFromMemory` divides by 1000: the least k for which
      data / 1000^k is at most 1000. */
  function UnitIndex(data: int): (k: nat)
    ensures data <= 1000 * Pow1000(k)
    ensures forall j :: 0 <= j < k ==> data > 1000 * Pow1000(j)
  {
    UnitIndexFrom(data, 0)
  }

  /** The text `getUnitFromMemory(data)` returns. For non-negative integers
      the repeated true division by 1000 is exact: data / 1000^k exceeds 1000
      exactly when data exceeds 1000^(k+1), and its floor is the integer
      quotient. */
  function MemoryText(data: int): string {
    var k := UnitIndex(data);
    "\U{2248}" + IntToString(data / Pow1000(k)) + UnitName(k)
  }

  /** `getUnitFromMemory`: divides by 1000 while the value exceeds 1000, then
      prints the floored value and the unit reached. */
  method GetUnitFromMemory(data: int) returns (text: string)
    ensures text == MemoryText(data)
  {
    var scale := 1;
    var id := 0;
    while data > 1000 * scale
      invariant scale == Pow1000(id)
      invariant UnitIndexFrom(data, id) == UnitIndex(data)
      decreases data - scale
    {
      scale := scale * 1000;
      id := id + 1;
    }
    text := "\U{2248}" + IntToString(data / scale) + UnitName(id);
  }

  /** What `getUnitFromMemory` prints: a value at most 1000 with the unit of
      the least scale that brings it there; at most 1000 bytes print as they
      are; anything larger prints with at least the KB unit and a value of at
      least 1. */
  lemma MemoryTextScale(data: int)
    ensures var k := UnitIndex(data);
      && MemoryText(data) == "\U{2248}" + IntToString(data / Pow1000(k)) + UnitName(k)
      && data / Pow1000(k) <= 1000
      && (data <= 1000 <==> k == 0)
      && (data > 1000 ==> 1 <= data / Pow1000(k))
  {
    var k := UnitIndex(data);
    var p := Pow1000(k);
    DivBelow(data, p);
    if k > 0 {
      assert data > 1000 * Pow1000(k - 1) == p;
      assert data / p >= 1;
    }
  }

  lemma DivBelow(data: int, p: nat)
    requires p >= 1 && data <= 1000 * p
    ensures data / p <= 1000
  {
  }

  /** The worked examples: `≈999B`, `≈1KB` and `≈2MB`. */
  lemma MemoryTextExamples()
    ensures MemoryText(999) == "\U{2248}999B"
    ensures MemoryText(1500) == "\U{2248}1KB"
    ensures MemoryText(2500000) == "\U{2248}2MB"
  {
    assert UnitIndex(999) == 0;
    assert UnitIndexFrom(1500, 1) == 1;
    assert UnitIndex(1500) == 1;
    assert UnitIndexFrom(2500000, 2) == 2;
    assert UnitIndex(2500000) == 2;
    assert NatToString(99) == "99";
    assert NatToString(999) == "999";
  }

  /** `formatTime`: `N/A` for a negative time, otherwise `≈<t>ms`. */
  function FormatTime(time: int): (text: string)
    ensures time < 0 <==> text == "N/A"
    ensures time >= 0 ==> ParseMillis(text) == Some(time)
    ensures time >= 0 && |text| > 4 ==> text[1] != '0'
  {
    if time < 0 then "N/A"
    else
      var digits := NatToString(time);
      var text := "\U{2248}" + digits + "ms";
      assert text[1..|text| - 2] == digits;
      ParseNatToString(time);
      text
  }

  /** 42 ms is written `≈42ms`, 0 ms `≈0ms` and a negative time `N/A`. */
  lemma FormatTimeExamples()
    ensures FormatTime(42) == "\U{2248}42ms"
    ensures FormatTime(0) == "\U{2248}0ms"
    ensures FormatTime(-1) == "N/A"
  {
    assert NatToString(42) == NatToString(4) + [DigitChar(2)];
  }

  /** Reads `≈<digits>ms` back as its number of milliseconds. */
  function ParseMillis(text: string): Option<int> {
    if |text| >= 3 && text[0] == '\U{2248}' && text[|text| - 2..] == "ms" && AllDigits(text[1..|text| - 2])
    then Some(ParseNat(text[1..|text| - 2]))
    else None
  }
}
