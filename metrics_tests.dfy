/**
 * The unit tests of src/metrics.rs as verified client code, and the general law
 * behind two of them: n increments followed by m <= n decrements leave n - m.
 */
module MetricsTests {
  import opened Metrics

  /** `a_new_counter_is_initialized_to_0`. */
  method NewCounterIsZero() returns (v: u32)
    ensures v == 0
  {
    var c := new Counter("test");
    v := c.value;
  }

  /** `incrementing_a_counter_3_times_has_value_of_3`. */
  method IncrementThreeTimes() returns (v: u32)
    ensures v == 3
  {
    var c := new Counter("test");
    var r := c.Increment();
    r := c.Increment();
    r := c.Increment();
    v := c.value;
  }

  /** `incrementing_a_count_3_times_and_decrementing_2_times_has_a_value_of_1`. */
  method IncrementThreeDecrementTwo() returns (v: u32)
    ensures v == 1
  {
    var c := new Counter("test");
    var r := c.Increment();
    r := c.Increment();
    r := c.Increment();
    r := c.Decrement();
    r := c.Decrement();
    v := c.value;
  }

  /** `new_metric_counters_are_init_to_0`. */
  method NewMetricsAllZero() returns (s: Snapshot)
    ensures forall k :: s.Get(k) == 0
  {
    var m := new Metrics();
    s := m.Values();
  }

  /** A fresh counter incremented `n` times and then decremented `m` times holds `n - m`. */
  method IncrementThenDecrement(n: nat, m: nat) returns (v: u32)
    requires m <= n <= U32_MAX as nat
    ensures v as nat == n - m
  {
    var c := new Counter("test");
    var i := 0;
    while i < n
      invariant 0 <= i <= n
      invariant c.value as nat == i
    {
      var r := c.Increment();
      i := i + 1;
    }
    var j := 0;
    while j < m
      invariant 0 <= j <= m
      invariant c.value as nat == n - j
    {
      var r := c.Decrement();
      j := j + 1;
    }
    v := c.value;
  }
}
