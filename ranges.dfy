/**
 * The ammeter's measurement ranges: the code the caller passes, the relay
 * selector lines PA3/PA4 each range drives, and the factor that turns a
 * raw 10-bit sample into amperes.
 */
module Ranges {
  import opened Wrappers

  /** Shunt selection: 1 kOhm (0..5 mA), 100 Ohm (0..50 mA), 1 Ohm (0..4 A). */
  datatype Range = Low | Mid | High

  /** The range code `Ammeter` takes for a range. */
  function Code(r: Range): bv8 {
    match r
    case Low => 1
    case Mid => 2
    case High => 3
  }

  /** The range a code selects, if any: only 1, 2 and 3 are recognised. */
  function RangeOf(code: bv8): (r: Option<Range>)
    ensures r.Some? <==> 1 <= code <= 3
    ensures r.Some? ==> Code(r.value) == code
  {
    if code == 1 then Some(Low)
    else if code == 2 then Some(Mid)
    else if code == 3 then Some(High)
    else None
  }

  /** Every range is recognised from its own code. */
  lemma RangeOfCode(r: Range)
    ensures RangeOf(Code(r)) == Some(r)
  {
  }

  /** Full-scale current of a range, in amperes. */
  function FullScale(r: Range): real {
    match r
    case Low => 0.005
    case Mid => 0.05
    case High => 4.0
  }

  /** Amperes per ADC count: a raw sample of 1024 is the range's full scale. */
  function ScaleFactor(r: Range): (f: real)
    ensures f > 0.0 && f * 1024.0 == FullScale(r)
  {
    match r
    case Low => 0.005 / 1024.0
    case Mid => 0.05 / 1024.0
    case High => 4.0 / 1024.0
  }

  /** A 10-bit sample scales to a current in [0, full scale). */
  lemma ScaledSampleBelowFullScale(r: Range, sample: nat)
    requires sample < 1024
    ensures 0.0 <= (sample as real) * ScaleFactor(r) < FullScale(r)
  {
  }

  /**
   * The levels of (PA3, PA4) for a range: (0,0), (1,0), (1,1). The
   * encoding is not Gray code and PA4 high never comes without PA3 high.
   */
  function Selector(r: Range): (s: (bool, bool))
    ensures s.1 ==> s.0
  {
    match r
    case Low => (false, false)
    case Mid => (true, false)
    case High => (true, true)
  }

  /** Distinct ranges drive distinct selector patterns. */
  lemma SelectorInjective(r1: Range, r2: Range)
    requires Selector(r1) == Selector(r2)
    ensures r1 == r2
  {
  }
}
