/** The link-quality percentage the Wi-Fi logger derives from an RSSI value
    in dBm: a straight line from 0 % at -100 dBm to 100 % at -50 dBm,
    clamped to 0..100. */
module Quality {
  import opened Text

  /** `rssi_to_quality`: `None` stays `None`. */
  function RssiToQuality(rssi: Option<int>): (q: Option<int>)
    ensures q.None? <==> rssi.None?
    ensures q.Some? ==> 0 <= q.value <= 100
    ensures q.Some? && rssi.value <= -100 ==> q.value == 0
    ensures q.Some? && rssi.value >= -50 ==> q.value == 100
    ensures q.Some? && -100 <= rssi.value <= -50 ==> q.value == 2 * (rssi.value + 100)
  {
    match rssi
    case None => None
    case Some(r) =>
      var raw := 2 * (r + 100);
      var capped := if raw < 100 then raw else 100;
      Some(if capped > 0 then capped else 0)
  }

  /** A stronger signal never reads as a lower quality. */
  lemma QualityMonotone(r1: int, r2: int)
    requires r1 <= r2
    ensures RssiToQuality(Some(r1)).value <= RssiToQuality(Some(r2)).value
  {
  }

  /** Each dBm between -100 and -50 is worth two percentage points. */
  lemma QualityStep(r: int)
    requires -100 <= r < -50
    ensures RssiToQuality(Some(r + 1)).value == RssiToQuality(Some(r)).value + 2
  {
  }
}
