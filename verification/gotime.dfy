/**
  Go's `time.Time`, reduced to what the importers use: an instant is a
  count of nanoseconds since the Unix epoch, `Add` shifts it by a
  duration and `Unix` truncates it to whole seconds, rounding down.
 */
module GoTime {

  datatype Time = Time(nanos: int)

  const Second: int := 1_000_000_000
  const Minute: int := 60 * Second

  /** Go's `t.Add(d)` for a duration `d` in nanoseconds. */
  function Add(t: Time, d: int): Time
  {
    Time(t.nanos + d)
  }

  /** Go's `t.Unix()`: the whole seconds at or before `t`. */
  function Unix(t: Time): (s: int)
    ensures s * Second <= t.nanos < (s + 1) * Second
  {
    t.nanos / Second
  }

  /** The instant one minute before `t` lies exactly 60 Unix seconds earlier. */
  lemma UnixMinuteEarlier(t: Time)
    ensures Unix(Add(t, -Minute)) == Unix(t) - 60
  {
    var s := Unix(t);
    assert (s - 60) * Second <= t.nanos - Minute < (s - 60 + 1) * Second;
  }
}
