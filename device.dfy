/** The device reading source: the smart plug's `get_current_power` call, seen
    only through the outcome of each poll. The j-th poll the program issues
    yields `device(j)`, so a test double is just a function of type
    `nat -> Poll`. */
module Device {

  /** The error a failed poll propagates (unreachable device, malformed
      response, protocol error). */
  datatype DeviceError = DeviceError(message: string)

  /** Success/failure of a fallible step, as Rust's `Result` with the
      device's error type. */
  datatype Result<T> = Ok(value: T) | Err(error: DeviceError)

  /** The outcome of one poll: the current power draw in watts, or an error. */
  type Poll = Result<nat>

  /** True when the first `n` polls all succeed. */
  predicate AllOk(device: nat -> Poll, n: nat) {
    forall j :: 0 <= j < n ==> device(j).Ok?
  }

  /** The readings of the first `n` polls, in poll order, when they all succeed. */
  function OkValues(device: nat -> Poll, n: nat): (vs: seq<nat>)
    requires AllOk(device, n)
    ensures |vs| == n
    ensures forall j :: 0 <= j < n ==> device(j) == Ok(vs[j])
  {
    seq(n, j requires 0 <= j < n && device(j).Ok? => device(j).value)
  }

  /** Taking one more successful poll appends its reading. */
  lemma OkValuesSnoc(device: nat -> Poll, n: nat)
    requires AllOk(device, n + 1)
    ensures OkValues(device, n + 1) == OkValues(device, n) + [device(n).value]
  {
  }
}
