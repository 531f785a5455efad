/** The value-level part of the slotted CSMA/CA backoff algorithm run by each
    sensor node: its configuration, the random backoff draw and the evolution
    of the backoff counters NB and BE on a busy channel. */
module Csma {

  /** The small compensation (one microsecond) the node subtracts and adds so
      that a transmission starts exactly at a backoff slot boundary. */
  const Compensation: real := 0.000001

  /** The node's configuration, fixed once the node is initialised.
      dBp: backoff slot duration, dP: transmission duration, T: packet
      generation period, tCca: duration of a clear channel assessment,
      pTx / pRx: transmit and receive power. */
  datatype Config = Config(
    dBp: real,
    dP: real,
    minBE: int,
    maxBE: int,
    maxBackoffs: int,
    T: real,
    tCca: real,
    pTx: real,
    pRx: real)
  {
    /** What the configuration loader guarantees: non-negative counts and
        powers, BE bounds in order, and a slot at least as long as the
        compensation (otherwise the busy timer would fire in the past). */
    predicate Valid() {
      0 <= minBE <= maxBE &&
      0 <= maxBackoffs &&
      Compensation <= dBp &&
      0.0 <= dP && 0.0 <= T && 0.0 <= tCca &&
      0.0 <= pTx && 0.0 <= pRx
    }
  }

  /** Two to the power e, on integers (SensorNodeCSMACA uses floating-point pow). */
  function Pow2(e: nat): (r: nat)
    ensures r >= 1
  {
    if e == 0 then 1 else 2 * Pow2(e - 1)
  }

  /** A larger exponent never gives a smaller power of two. */
  lemma {:induction false} Pow2Monotone(a: nat, b: nat)
    requires a <= b
    ensures Pow2(a) <= Pow2(b)
  {
    if a < b {
      Pow2Monotone(a, b - 1);
    }
  }

  /** A fraction in [0, 1) of a positive width lies in [0, width). */
  lemma FractionBelow(u: real, width: real)
    requires 0.0 <= u < 1.0 && 0.0 < width
    ensures 0.0 <= u * width < width
  {
    assert width - u * width == (1.0 - u) * width;
  }

  /** intuniform(0, n): the integer picked in [0, n], both ends included, by
      the uniform variate u in [0, 1) that the random number generator
      supplies. */
  function IntUniform(n: nat, u: real): (r: nat)
    requires 0.0 <= u < 1.0
    ensures r <= n
  {
    var width := (n + 1) as real;
    FractionBelow(u, width);
    (u * width).Floor
  }

  /** Every integer of [0, n] is drawn by some variate: the model does not
      narrow the range of the draw. */
  lemma IntUniformCovers(n: nat, r: nat)
    requires r <= n
    ensures 0.0 <= r as real / (n + 1) as real < 1.0
    ensures IntUniform(n, r as real / (n + 1) as real) == r
  {
    var width := (n + 1) as real;
    var u := r as real / width;
    assert u * width == r as real;
  }

  /** Scaling by a non-negative factor keeps the order. */
  lemma ScaleMonotone(a: real, b: real, c: real)
    requires a <= b && 0.0 <= c
    ensures a * c <= b * c
  {
    assert b * c - a * c == (b - a) * c;
  }

  /** A whole number of slots, at most n, spans between nothing and n
      slots. */
  lemma SlotsScale(slots: nat, n: nat, d: real)
    requires slots <= n && 0.0 <= d
    ensures 0.0 <= slots as real * d <= n as real * d
  {
    ScaleMonotone(0.0, slots as real, d);
    ScaleMonotone(slots as real, n as real, d);
  }

  /** The duration of r backoff slots. */
  function SlotTime(cfg: Config, r: nat): real {
    r as real * cfg.dBp
  }

  /** generate_backoff_time: the offset lies between 0 and 2^be slots. */
  function GenerateBackoffTime(cfg: Config, be: int, u: real): (t: real)
    requires cfg.Valid() && cfg.minBE <= be <= cfg.maxBE
    requires 0.0 <= u < 1.0
    ensures 0.0 <= t <= Pow2(be) as real * cfg.dBp
  {
    var n := Pow2(be);
    var slots := IntUniform(n, u);
    SlotsScale(slots, n, cfg.dBp);
    SlotTime(cfg, slots)
  }

  /** The offset is a whole number of backoff slots, 2^be included. */
  lemma WholeSlots(cfg: Config, be: int, u: real)
    requires cfg.Valid() && cfg.minBE <= be <= cfg.maxBE
    requires 0.0 <= u < 1.0
    ensures exists r: nat :: r <= Pow2(be) && GenerateBackoffTime(cfg, be, u) == SlotTime(cfg, r)
  {
    var r := IntUniform(Pow2(be), u);
    assert GenerateBackoffTime(cfg, be, u) == SlotTime(cfg, r);
  }

  /** Every whole number of slots from 0 to 2^be, both ends included, is the
      offset of some draw: the range is not narrowed. */
  lemma EverySlotReachable(cfg: Config, be: int, r: nat)
    requires cfg.Valid() && cfg.minBE <= be <= cfg.maxBE
    requires r <= Pow2(be)
    ensures exists u: real :: 0.0 <= u < 1.0 && GenerateBackoffTime(cfg, be, u) == SlotTime(cfg, r)
  {
    var n := Pow2(be);
    IntUniformCovers(n, r);
    var u := r as real / (n + 1) as real;
    assert GenerateBackoffTime(cfg, be, u) == SlotTime(cfg, r);
  }

  /** Since be never exceeds macMaxBE, a backoff offset is never longer than
      2^macMaxBE slots. */
  lemma BackoffTimeAtMostMax(cfg: Config, be: int, u: real)
    requires cfg.Valid() && cfg.minBE <= be <= cfg.maxBE
    requires 0.0 <= u < 1.0
    ensures GenerateBackoffTime(cfg, be, u) <= Pow2(cfg.maxBE) as real * cfg.dBp
  {
    Pow2Monotone(be, cfg.maxBE);
    ScaleMonotone(Pow2(be) as real, Pow2(cfg.maxBE) as real, cfg.dBp);
  }

  /** The backoff exponent after a busy CCA: one more, saturating at
      macMaxBE. */
  function RaiseExponent(cfg: Config, be: int): (r: int)
    ensures r <= cfg.maxBE
    ensures be < cfg.maxBE ==> r == be + 1
    ensures be >= cfg.maxBE ==> r == cfg.maxBE
    ensures cfg.minBE <= be <= cfg.maxBE ==> cfg.minBE <= r
  {
    if be + 1 > cfg.maxBE then cfg.maxBE else be + 1
  }

  /** The two backoff counters of the packet in hand. */
  datatype Backoff = Backoff(nb: int, be: int)

  /** The counters a packet starts with. */
  function Fresh(cfg: Config): Backoff {
    Backoff(0, cfg.minBE)
  }

  /** The counters after one more busy CCA: one more backoff, and an exponent
      that stays within [macMinBE, macMaxBE] when it started there. */
  function AfterBusy(cfg: Config, b: Backoff): (r: Backoff)
    ensures r.nb == b.nb + 1
    ensures cfg.minBE <= b.be <= cfg.maxBE ==> b.be <= r.be && cfg.minBE <= r.be <= cfg.maxBE
  {
    Backoff(b.nb + 1, RaiseExponent(cfg, b.be))
  }

  /** The counters after k busy CCAs in a row on a fresh packet. */
  function BusyRun(cfg: Config, k: nat): Backoff {
    if k == 0 then Fresh(cfg) else AfterBusy(cfg, BusyRun(cfg, k - 1))
  }

  function Min(a: int, b: int): int {
    if a <= b then a else b
  }

  /** After k busy CCAs in a row, NB is k and BE is macMinBE + k capped at
      macMaxBE; the packet is still retried exactly when k does not exceed
      macMaxCSMABackoffs, so it is dropped on busy CCA number
      macMaxCSMABackoffs + 1. */
  lemma {:induction false} BusyRunClosedForm(cfg: Config, k: nat)
    requires cfg.Valid()
    ensures BusyRun(cfg, k) == Backoff(k, Min(cfg.minBE + k, cfg.maxBE))
    ensures cfg.minBE <= BusyRun(cfg, k).be <= cfg.maxBE
    ensures BusyRun(cfg, k).nb <= cfg.maxBackoffs <==> k <= cfg.maxBackoffs
  {
    if k > 0 {
      BusyRunClosedForm(cfg, k - 1);
    }
  }
}
