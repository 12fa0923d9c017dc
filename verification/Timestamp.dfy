/** The arithmetic under the room clock: milliseconds in, seconds out. */
module Timestamp {

  function CalculateCurrentPosition(startTime: int, nowTime: int, offset: real, playbackSpeed: real): real {
    offset + (nowTime - startTime) as real / 1000.0 * playbackSpeed
  }

  /** Time passes additively: measuring up to `mid` and on from there loses nothing. */
  lemma Additive(startTime: int, mid: int, nowTime: int, offset: real, speed: real)
    ensures CalculateCurrentPosition(mid, nowTime, CalculateCurrentPosition(startTime, mid, offset, speed), speed)
            == CalculateCurrentPosition(startTime, nowTime, offset, speed)
  {
    var a, b := (mid - startTime) as real / 1000.0, (nowTime - mid) as real / 1000.0;
    assert (nowTime - startTime) as real / 1000.0 == a + b;
    assert a * speed + b * speed == (a + b) * speed;
  }

  lemma NoTimeNoProgress(time: int, offset: real, speed: real)
    ensures CalculateCurrentPosition(time, time, offset, speed) == offset
  {
  }
}
