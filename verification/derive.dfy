/** Per-row derived quantities: HER current, bunch currents, the bunch-current
    product and the luminosity, with the collision gate of `day1`. Currents are
    exact rationals; the specific-luminosity model `Lsph` is a parameter.

    A row is first reduced to a `Sample`: its time-axis value, its LER current and
    whether the gate is open on its day. `DeriveSample` computes the nine values from
    the sample alone. */
module Derive {
  import opened Calendar
  import opened TimeAxis

  /** `her2ler`: HER current per unit of LER current. */
  const HerToLerRatio: real := 1.83 / 2.58

  /** `nb2346`: the nominal number of bunches. */
  const NominalBunches: real := 2346.0

  /** Marks a product or luminosity entry for a day before collisions. */
  const Sentinel: real := -100.0

  /** Luminosity is reported in units of 10^35 cm^-2 s^-1. */
  const LuminosityUnit: real := 1.0e35

  /** `iher`: HER current derived from the LER reading. */
  function HerCurrent(iler: real): real {
    iler * HerToLerRatio
  }

  /** Current per bunch: the total shared among the nominal bunches, times 1000
      (the plots label it in mA). */
  function BunchCurrent(total: real): real {
    total / NominalBunches * 1000.0
  }

  /** The bunch-current product pushed into `vbpro`, in the source's order of operations. */
  function BunchProduct(iler: real, iher: real): real {
    iler / NominalBunches * 1000.0 * iher / NominalBunches * 1000.0
  }

  /** `mA2`, the argument of the specific-luminosity model. */
  function MilliAmpSquared(iler: real, iher: real): real {
    iler / NominalBunches * iher / NominalBunches * 1.0e6
  }

  /** Luminosity for the nominal bunch count, normalised to 10^35. */
  function Luminosity(mA2: real, lsph: real -> real): real {
    mA2 * lsph(mA2) * NominalBunches / LuminosityUnit
  }

  /** A reading placed on the time axis, with the gate decision for its day. */
  datatype Sample = Sample(sec: int, iler: real, collides: bool)

  /** `sec` and `ptimed > day1` for a reading of `iler` on day `d`. */
  function SampleOf(iler: real, d: Date): Sample
    requires ValidDate(d)
  {
    Sample(AxisSeconds(d), iler, Collides(d))
  }

  /** The values one row contributes to the nine series. */
  datatype RowValues = RowValues(
    sler: int, iler: real, bler: real,
    sher: int, iher: real, bher: real,
    scol: int, bpro: real, lumi: real)

  /** The body of the main loop after the row has been read. */
  function DeriveSample(s: Sample, lsph: real -> real): RowValues {
    var iher := HerCurrent(s.iler);
    var (bpro, lumi) :=
      if s.collides then
        var mA2 := MilliAmpSquared(s.iler, iher);
        (BunchProduct(s.iler, iher), Luminosity(mA2, lsph))
      else (Sentinel, Sentinel);
    RowValues(s.sec, s.iler, BunchCurrent(s.iler), s.sec, iher, BunchCurrent(iher), s.sec, bpro, lumi)
  }

  /** Everything the main loop derives from a reading of `iler` on day `d`. */
  function DeriveRow(iler: real, d: Date, lsph: real -> real): RowValues
    requires ValidDate(d)
  {
    DeriveSample(SampleOf(iler, d), lsph)
  }

  // ---------------------------------------------------------------------------
  // Properties
  // ---------------------------------------------------------------------------

  /** HER scaling is linear in the LER current. */
  lemma HerCurrentLinear(x1: real, x2: real, c: real)
    ensures HerCurrent(x1 + x2) == HerCurrent(x1) + HerCurrent(x2)
    ensures HerCurrent(c * x1) == c * HerCurrent(x1)
  {
  }

  /** The product written to `vbpro` and the `mA2` fed to the model are both the
      product of the two bunch currents. */
  lemma ProductOfBunchCurrents(iler: real, iher: real)
    ensures BunchProduct(iler, iher) == BunchCurrent(iler) * BunchCurrent(iher)
    ensures MilliAmpSquared(iler, iher) == BunchProduct(iler, iher)
  {
    var b := NominalBunches;
    assert BunchProduct(iler, iher) == (iler * iher) * (1000.0 * 1000.0) / (b * b);
    assert MilliAmpSquared(iler, iher) == (iler * iher) * 1.0e6 / (b * b);
  }

  /** Bunch-current product of an LER reading and the HER current derived from it:
      a positive multiple of the square of the reading, so never negative. */
  lemma ProductNonNegative(iler: real)
    ensures BunchProduct(iler, HerCurrent(iler)) >= 0.0
    ensures iler != 0.0 ==> BunchProduct(iler, HerCurrent(iler)) > 0.0
  {
    ProductOfBunchCurrents(iler, HerCurrent(iler));
    var k := HerToLerRatio * 1000.0 * 1000.0 / (NominalBunches * NominalBunches);
    assert BunchCurrent(iler) * BunchCurrent(HerCurrent(iler)) == (iler * iler) * k;
    assert k > 0.0;
  }

  /** A reading's sample: its day count from 1970 in seconds minus the 1995 shift,
      its current unchanged, and an open gate exactly after 2024-10-22. */
  lemma SampleOfReading(iler: real, d: Date)
    requires ValidDate(d)
    ensures SampleOf(iler, d).sec == EpochDay(d) * SecondsPerDay - ReferenceShift
    ensures SampleOf(iler, d).iler == iler
    ensures SampleOf(iler, d).collides <==> Before(CollisionStart, d)
  {
    AxisSecondsIsMidnight(d);
    CollidesAfterCollisionStart(d);
  }

  /** A row puts its sample's time into all three axes, its reading and the HER
      current at the fixed ratio into the current series, and both over the nominal
      bunch count into the bunch-current series. */
  lemma DeriveCurrents(s: Sample, lsph: real -> real)
    ensures var v := DeriveSample(s, lsph);
      && v.sler == v.sher == v.scol == s.sec
      && v.iler == s.iler
      && v.iher == s.iler * 1.83 / 2.58
      && v.bler == s.iler / 2346.0 * 1000.0
      && v.bher == v.iher / 2346.0 * 1000.0
  {
  }

  /** With the gate open the product is the product of the two bunch currents and the
      luminosity is `mA2 * Lsph(mA2) * 2346 / 1e35` at that product; with it closed
      both are the sentinel, whatever the current. */
  lemma DeriveProducts(s: Sample, lsph: real -> real)
    ensures var v := DeriveSample(s, lsph);
      && (s.collides ==>
            && v.bpro == v.bler * v.bher
            && v.lumi == v.bpro * lsph(v.bpro) * 2346.0 / 1.0e35)
      && (!s.collides ==> v.bpro == -100.0 && v.lumi == -100.0)
  {
    if s.collides {
      ProductOfBunchCurrents(s.iler, HerCurrent(s.iler));
    }
  }

  /** The product series holds the sentinel exactly for closed-gate samples: a real
      product is never negative, so it never collides with −100. */
  lemma SentinelMeansGateClosed(s: Sample, lsph: real -> real)
    ensures DeriveSample(s, lsph).bpro == Sentinel <==> !s.collides
    ensures !s.collides ==> DeriveSample(s, lsph).lumi == Sentinel
  {
    if s.collides {
      ProductNonNegative(s.iler);
    }
  }

  /** Whether a row carries the sentinel depends only on its date, never on its current. */
  lemma GateIgnoresCurrent(i1: real, i2: real, d: Date, lsph: real -> real)
    requires ValidDate(d)
    ensures (DeriveRow(i1, d, lsph).bpro == Sentinel) <==> (DeriveRow(i2, d, lsph).bpro == Sentinel)
    ensures (DeriveRow(i1, d, lsph).bpro == Sentinel) <==> !Before(CollisionStart, d)
  {
    SampleOfReading(i1, d);
    SampleOfReading(i2, d);
    SentinelMeansGateClosed(SampleOf(i1, d), lsph);
    SentinelMeansGateClosed(SampleOf(i2, d), lsph);
  }

  /** A reading on 2024-10-20 predates the collisions: both outputs are the sentinel. */
  lemma GatedOutExample(lsph: real -> real)
    ensures ValidDate(Date(2024, 10, 20))
    ensures DeriveRow(1.2345, Date(2024, 10, 20), lsph).bpro == Sentinel
    ensures DeriveRow(1.2345, Date(2024, 10, 20), lsph).lumi == Sentinel
  {
    SampleOfReading(1.2345, Date(2024, 10, 20));
  }

  /** A reading of 1.2345 on 2024-10-25 is past the gate. Its derived values are exact
      rationals: HER ≈ 0.87563, bunch currents ≈ 0.52621 and ≈ 0.37324, and
      product ≈ 0.19640. */
  lemma GatedInExample(lsph: real -> real)
    ensures ValidDate(Date(2024, 10, 25))
    ensures SampleOf(1.2345, Date(2024, 10, 25)).collides
    ensures var v := DeriveRow(1.2345, Date(2024, 10, 25), lsph);
      && 0.8756 < v.iher < 0.8757
      && 0.5262 < v.bler < 0.5263
      && 0.3732 < v.bher < 0.3733
      && 0.1964 < v.bpro < 0.1965
  {
    SampleOfReading(1.2345, Date(2024, 10, 25));
    GatedInValues(SampleOf(1.2345, Date(2024, 10, 25)), lsph);
  }

  /** The same values for any open-gate sample of the 1.2345 reading. */
  lemma GatedInValues(s: Sample, lsph: real -> real)
    requires s.iler == 1.2345 && s.collides
    ensures var v := DeriveSample(s, lsph);
      && 0.8756 < v.iher < 0.8757
      && 0.5262 < v.bler < 0.5263
      && 0.3732 < v.bher < 0.3733
      && 0.1964 < v.bpro < 0.1965
  {
  }
}
