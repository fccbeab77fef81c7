/**
 * GNSS constellation: satellite positions and clock offsets from a chain of
 * precise-ephemeris (SP3) files, each covering one day.  For every tracked
 * satellite the simulator keeps a window of nine consecutive ephemeris
 * epochs, one for the orbit and one for the clock, stored as time offsets
 * from a fixed reference epoch.  The window is seeded around the start time
 * and slides forward by one epoch whenever simulated time passes its middle
 * sample, rolling over to the first epoch of the next file when a file runs
 * out.  Queries interpolate in the window (the interpolators are supplied by
 * the caller) and answer with sentinels outside it.
 */
module GnssConstellation {
  import opened Wrappers
  import opened VectorMath

  /** Samples kept per satellite and quantity. */
  const NumberOfInterpolation: nat := 9
  /** Epochs seeded before the nearest one. */
  const HalfInterpolationNumber: nat := NumberOfInterpolation / 2
  /** Index of the window sample whose offset triggers a push in `Update`. */
  const MiddleSampleIndex: nat := 4
  /** Satellites whose windows `Update` refreshes. */
  const UpdatedSatelliteCount: nat := 32
  /** Span of one ephemeris file. */
  const SecondsPerDay: real := 86400.0
  /** Largest offset from the reference epoch that a query answers. */
  const MaxQueryOffset: real := 1000000.0
  /** Orbital period handed to the trigonometric orbit interpolator. */
  const OrbitalPeriodCorrection: real := 86400.0 * 1.003
  const MetresPerKilometre: real := 1000.0
  const SecondsPerMicrosecond: real := 0.000001

  /** A time as whole seconds plus a fraction. */
  datatype EpochTime = EpochTime(timeS: int, fractionS: real)
  {
    function WithFraction(): real
    {
      timeS as real + fractionS
    }
  }

  /** One epoch of an ephemeris file: per-satellite position in km and clock offset in microseconds. */
  datatype Sp3Epoch = Sp3Epoch(time: EpochTime, positionsKm: seq<seq<real>>, clockOffsetsUs: seq<real>)

  datatype Sp3File = Sp3File(startTime: EpochTime, numberOfSatellites: nat, epochs: seq<Sp3Epoch>)

  predicate FileWellFormed(f: Sp3File)
  {
    |f.epochs| > 0
    && forall e :: 0 <= e < |f.epochs| ==>
      |f.epochs[e].positionsKm| == f.numberOfSatellites
      && |f.epochs[e].clockOffsetsUs| == f.numberOfSatellites
      && forall g :: 0 <= g < f.numberOfSatellites ==> |f.epochs[e].positionsKm[g]| == 3
  }

  /** Every file from index `from` on is well formed and lists at least `n` satellites:
    * what seeding and updating read once the file at `from` is selected. */
  predicate ChainFrom(files: seq<Sp3File>, from: nat, n: nat)
  {
    forall i :: from <= i < |files| ==> FileWellFormed(files[i]) && n <= files[i].numberOfSatellites
  }

  // ---------------------------------------------------------------------------
  // Sample windows
  // ---------------------------------------------------------------------------

  /** A window entry: time offset from the reference epoch and the value at that time. */
  datatype Sample<V> = Sample(offset: real, value: V)

  /** Appends the newest sample and drops the oldest. */
  function PushAndPop<V>(w: seq<Sample<V>>, s: Sample<V>): (r: seq<Sample<V>>)
    requires |w| > 0
    ensures |r| == |w|
    ensures r[|r| - 1] == s
    ensures forall j :: 0 <= j < |w| - 1 ==> r[j] == w[j + 1]
  {
    w[1..] + [s]
  }

  /** The window after pushing `ss` in order. */
  function PushAll<V>(w: seq<Sample<V>>, ss: seq<Sample<V>>): (r: seq<Sample<V>>)
    requires |w| > 0
    ensures |r| == |w|
  {
    if |ss| == 0 then w else PushAndPop(PushAll(w, ss[..|ss| - 1]), ss[|ss| - 1])
  }

  /** A window remembers exactly the newest samples: after `k <= |w|` pushes it holds the
    * last `|w| - k` old samples followed by the `k` new ones. */
  lemma {:induction false} PushAllKeepsNewest<V>(w: seq<Sample<V>>, ss: seq<Sample<V>>)
    requires 0 < |w| && |ss| <= |w|
    ensures PushAll(w, ss) == w[|ss|..] + ss
  {
    if |ss| > 0 {
      var front := ss[..|ss| - 1];
      PushAllKeepsNewest(w, front);
      calc {
        PushAll(w, ss);
        PushAndPop(w[|front|..] + front, ss[|ss| - 1]);
        (w[|front|..] + front)[1..] + [ss[|ss| - 1]];
        { assert (w[|front|..] + front)[1..] == w[|ss|..] + front; }
        w[|ss|..] + front + [ss[|ss| - 1]];
        { assert front + [ss[|ss| - 1]] == ss; }
        w[|ss|..] + ss;
      }
    }
  }

  /** Once as many samples as the window holds have been pushed, nothing of the old window is left. */
  lemma PushAllReplacesWindow<V>(w: seq<Sample<V>>, ss: seq<Sample<V>>)
    requires 0 < |w| && |ss| == |w|
    ensures PushAll(w, ss) == ss
  {
    PushAllKeepsNewest(w, ss);
    assert w[|ss|..] == [];
  }

  lemma PushAllSnoc<V>(w: seq<Sample<V>>, ss: seq<Sample<V>>, s: Sample<V>)
    requires |w| > 0
    ensures PushAll(w, ss + [s]) == PushAndPop(PushAll(w, ss), s)
  {
    assert (ss + [s])[..|ss|] == ss;
  }

  /** The placeholder windows that seeding pushes out: clock samples are (-1, -1). */
  function InitialClockWindow(): (w: seq<Sample<real>>)
    ensures |w| == NumberOfInterpolation
  {
    seq(NumberOfInterpolation, _ => Sample(-1.0, -1.0))
  }

  function InitialOrbitWindow(): (w: seq<Sample<seq<real>>>)
    ensures |w| == NumberOfInterpolation
  {
    seq(NumberOfInterpolation, _ => Sample(0.0, Zero(3)))
  }

  // ---------------------------------------------------------------------------
  // Position in the file chain
  // ---------------------------------------------------------------------------

  /** The ephemeris epoch being read: file index and epoch index in that file.
    * A file index equal to the number of files means the chain is exhausted. */
  datatype Cursor = Cursor(fileId: nat, epochId: nat)

  predicate InRange(files: seq<Sp3File>, c: Cursor)
  {
    c.fileId < |files| && c.epochId < |files[c.fileId].epochs|
  }

  /** A cursor that is either on an epoch or past the last file. */
  predicate Sound(files: seq<Sp3File>, c: Cursor)
  {
    c.fileId <= |files| && (c.fileId < |files| ==> c.epochId < |files[c.fileId].epochs|)
  }

  /** The next epoch: the index moves on, and past the last epoch of a file it
    * restarts at 0 in the next file. */
  function Step(files: seq<Sp3File>, c: Cursor): (r: Cursor)
    requires c.fileId < |files|
    ensures ChainFrom(files, c.fileId, 0) && Sound(files, c) ==> Sound(files, r)
    ensures r.fileId == c.fileId <==> c.epochId + 1 < |files[c.fileId].epochs|
    ensures r.fileId == c.fileId ==> r.epochId == c.epochId + 1
    ensures r.fileId != c.fileId ==> r.fileId == c.fileId + 1 && r.epochId == 0
  {
    if c.epochId + 1 >= |files[c.fileId].epochs| then Cursor(c.fileId + 1, 0) else Cursor(c.fileId, c.epochId + 1)
  }

  /** The cursors the seeding loop reads in its first `k` rounds: it stops early once the files are exhausted. */
  function Visit(files: seq<Sp3File>, c: Cursor, k: nat): (cs: seq<Cursor>)
    decreases k
    ensures |cs| <= k
    ensures forall j :: 0 <= j < |cs| ==> c.fileId <= cs[j].fileId
    ensures ChainFrom(files, c.fileId, 0) && Sound(files, c) ==> forall j :: 0 <= j < |cs| ==> InRange(files, cs[j])
  {
    if k == 0 || c.fileId >= |files| then [] else [c] + Visit(files, Step(files, c), k - 1)
  }

  /** The cursor after those rounds. */
  function After(files: seq<Sp3File>, c: Cursor, k: nat): Cursor
    decreases k
  {
    if k == 0 || c.fileId >= |files| then c else After(files, Step(files, c), k - 1)
  }

  /** Progress of the seeding rounds from `start`: `done` were read and `c` is next, with `k` rounds left. */
  predicate SeedProgress(files: seq<Sp3File>, start: Cursor, done: seq<Cursor>, c: Cursor, k: nat)
  {
    Visit(files, start, NumberOfInterpolation) == done + Visit(files, c, k)
    && After(files, start, NumberOfInterpolation) == After(files, c, k)
  }

  lemma SeedProgressStep(files: seq<Sp3File>, start: Cursor, done: seq<Cursor>, c: Cursor, k: nat)
    requires k > 0 && c.fileId < |files|
    ensures SeedProgress(files, start, done, c, k) ==> SeedProgress(files, start, done + [c], Step(files, c), k - 1)
  {
    assert Visit(files, c, k) == [c] + Visit(files, Step(files, c), k - 1);
  }

  lemma SeedProgressDone(files: seq<Sp3File>, start: Cursor, done: seq<Cursor>, c: Cursor, k: nat)
    requires SeedProgress(files, start, done, c, k) && (k == 0 || c.fileId >= |files|)
    ensures Visit(files, start, NumberOfInterpolation) == done
    ensures After(files, start, NumberOfInterpolation) == c
  {
    assert Visit(files, c, k) == [];
  }

  /** The rounds read consecutive epochs, starting at `c`. */
  lemma {:induction false} VisitConsecutive(files: seq<Sp3File>, c: Cursor, k: nat)
    decreases k
    ensures |Visit(files, c, k)| > 0 ==> Visit(files, c, k)[0] == c
    ensures forall j :: 0 <= j < |Visit(files, c, k)| - 1 ==>
      Visit(files, c, k)[j].fileId < |files| && Visit(files, c, k)[j + 1] == Step(files, Visit(files, c, k)[j])
  {
    if k > 0 && c.fileId < |files| {
      VisitConsecutive(files, Step(files, c), k - 1);
    }
  }

  /** While the chain is not exhausted every round reads an epoch; a short run means the files ran out. */
  lemma {:induction false} VisitStopsOnlyWhenExhausted(files: seq<Sp3File>, c: Cursor, k: nat)
    decreases k
    ensures |Visit(files, c, k)| < k ==> After(files, c, k).fileId >= |files|
    ensures |Visit(files, c, k)| == k || After(files, c, k).fileId >= |files|
  {
    if k > 0 && c.fileId < |files| {
      VisitStopsOnlyWhenExhausted(files, Step(files, c), k - 1);
    }
  }

  // ---------------------------------------------------------------------------
  // Samples taken from the files
  // ---------------------------------------------------------------------------

  /** Offset of the epoch under `c` from the reference epoch. */
  function EpochOffset(files: seq<Sp3File>, c: Cursor, referenceTime: EpochTime): real
    requires InRange(files, c)
  {
    files[c.fileId].epochs[c.epochId].time.WithFraction() - referenceTime.WithFraction()
  }

  /** The epoch under `c` exists and holds satellites 0 .. n-1. */
  predicate Readable(files: seq<Sp3File>, c: Cursor, n: nat)
  {
    InRange(files, c) && FileWellFormed(files[c.fileId]) && n <= files[c.fileId].numberOfSatellites
  }

  predicate AllReadable(files: seq<Sp3File>, cs: seq<Cursor>, n: nat)
  {
    forall j :: 0 <= j < |cs| ==> Readable(files, cs[j], n)
  }

  /** The orbit sample of satellite `g`: its position converted from km to m. */
  function OrbitSample(files: seq<Sp3File>, c: Cursor, referenceTime: EpochTime, g: nat): (s: Sample<seq<real>>)
    requires Readable(files, c, g + 1)
    ensures s.offset == EpochOffset(files, c, referenceTime)
    ensures |s.value| == 3
    ensures forall i :: 0 <= i < 3 ==> s.value[i] == MetresPerKilometre * files[c.fileId].epochs[c.epochId].positionsKm[g][i]
  {
    Sample(EpochOffset(files, c, referenceTime), Scale(MetresPerKilometre, files[c.fileId].epochs[c.epochId].positionsKm[g]))
  }

  /** The clock sample of satellite `g`, kept in microseconds. */
  function ClockSample(files: seq<Sp3File>, c: Cursor, referenceTime: EpochTime, g: nat): (s: Sample<real>)
    requires Readable(files, c, g + 1)
    ensures s.offset == EpochOffset(files, c, referenceTime)
    ensures s.value == files[c.fileId].epochs[c.epochId].clockOffsetsUs[g]
  {
    Sample(EpochOffset(files, c, referenceTime), files[c.fileId].epochs[c.epochId].clockOffsetsUs[g])
  }

  function OrbitSamples(files: seq<Sp3File>, cs: seq<Cursor>, referenceTime: EpochTime, g: nat): (ss: seq<Sample<seq<real>>>)
    requires AllReadable(files, cs, g + 1)
    ensures |ss| == |cs|
  {
    seq(|cs|, j requires 0 <= j < |cs| => OrbitSample(files, cs[j], referenceTime, g))
  }

  function ClockSamples(files: seq<Sp3File>, cs: seq<Cursor>, referenceTime: EpochTime, g: nat): (ss: seq<Sample<real>>)
    requires AllReadable(files, cs, g + 1)
    ensures |ss| == |cs|
  {
    seq(|cs|, j requires 0 <= j < |cs| => ClockSample(files, cs[j], referenceTime, g))
  }

  /** The orbit windows after one epoch is pushed into the first `count` of them. */
  function PushedOrbit(w: seq<seq<Sample<seq<real>>>>, files: seq<Sp3File>, c: Cursor, referenceTime: EpochTime, count: nat)
    : (r: seq<seq<Sample<seq<real>>>>)
    requires Readable(files, c, count) && count <= |w|
    requires forall g :: 0 <= g < |w| ==> |w[g]| > 0
    ensures |r| == |w|
    ensures forall g :: 0 <= g < |w| ==> |r[g]| == |w[g]|
    ensures forall g :: 0 <= g < count ==>
      r[g][|r[g]| - 1] == OrbitSample(files, c, referenceTime, g) && r[g][..|r[g]| - 1] == w[g][1..]
    ensures forall g :: count <= g < |w| ==> r[g] == w[g]
  {
    seq(|w|, g requires 0 <= g < |w| =>
      if g < count then PushAndPop(w[g], OrbitSample(files, c, referenceTime, g)) else w[g])
  }

  function PushedClock(w: seq<seq<Sample<real>>>, files: seq<Sp3File>, c: Cursor, referenceTime: EpochTime, count: nat)
    : (r: seq<seq<Sample<real>>>)
    requires Readable(files, c, count) && count <= |w|
    requires forall g :: 0 <= g < |w| ==> |w[g]| > 0
    ensures |r| == |w|
    ensures forall g :: 0 <= g < |w| ==> |r[g]| == |w[g]|
    ensures forall g :: 0 <= g < count ==>
      r[g][|r[g]| - 1] == ClockSample(files, c, referenceTime, g) && r[g][..|r[g]| - 1] == w[g][1..]
    ensures forall g :: count <= g < |w| ==> r[g] == w[g]
  {
    seq(|w|, g requires 0 <= g < |w| =>
      if g < count then PushAndPop(w[g], ClockSample(files, c, referenceTime, g)) else w[g])
  }

  /** The orbit windows of `n` satellites after the epochs `cs` were pushed into the placeholders. */
  function SeededOrbit(files: seq<Sp3File>, cs: seq<Cursor>, referenceTime: EpochTime, n: nat): (w: seq<seq<Sample<seq<real>>>>)
    requires AllReadable(files, cs, n)
    ensures |w| == n && forall g :: 0 <= g < n ==> |w[g]| == NumberOfInterpolation
  {
    seq(n, g requires 0 <= g < n => PushAll(InitialOrbitWindow(), OrbitSamples(files, cs, referenceTime, g)))
  }

  function SeededClock(files: seq<Sp3File>, cs: seq<Cursor>, referenceTime: EpochTime, n: nat): (w: seq<seq<Sample<real>>>)
    requires AllReadable(files, cs, n)
    ensures |w| == n && forall g :: 0 <= g < n ==> |w[g]| == NumberOfInterpolation
  {
    seq(n, g requires 0 <= g < n => PushAll(InitialClockWindow(), ClockSamples(files, cs, referenceTime, g)))
  }

  /** Before the first round the windows hold only placeholders. */
  lemma NothingSeeded(files: seq<Sp3File>, referenceTime: EpochTime, n: nat)
    ensures SeededOrbit(files, [], referenceTime, n) == seq(n, _ => InitialOrbitWindow())
    ensures SeededClock(files, [], referenceTime, n) == seq(n, _ => InitialClockWindow())
  {
  }

  /** One seeding round: pushing the epoch under `c` into every window extends the seeded epochs by `c`. */
  lemma SeedRound(files: seq<Sp3File>, cs: seq<Cursor>, c: Cursor, referenceTime: EpochTime, n: nat)
    requires AllReadable(files, cs, n) && Readable(files, c, n)
    ensures AllReadable(files, cs + [c], n)
    ensures PushedOrbit(SeededOrbit(files, cs, referenceTime, n), files, c, referenceTime, n)
         == SeededOrbit(files, cs + [c], referenceTime, n)
    ensures PushedClock(SeededClock(files, cs, referenceTime, n), files, c, referenceTime, n)
         == SeededClock(files, cs + [c], referenceTime, n)
  {
    assert AllReadable(files, cs + [c], n);
    forall g | 0 <= g < n
      ensures PushAndPop(PushAll(InitialOrbitWindow(), OrbitSamples(files, cs, referenceTime, g)), OrbitSample(files, c, referenceTime, g))
           == PushAll(InitialOrbitWindow(), OrbitSamples(files, cs + [c], referenceTime, g))
      ensures PushAndPop(PushAll(InitialClockWindow(), ClockSamples(files, cs, referenceTime, g)), ClockSample(files, c, referenceTime, g))
           == PushAll(InitialClockWindow(), ClockSamples(files, cs + [c], referenceTime, g))
    {
      assert OrbitSamples(files, cs + [c], referenceTime, g)
          == OrbitSamples(files, cs, referenceTime, g) + [OrbitSample(files, c, referenceTime, g)];
      assert ClockSamples(files, cs + [c], referenceTime, g)
          == ClockSamples(files, cs, referenceTime, g) + [ClockSample(files, c, referenceTime, g)];
      PushAllSnoc(InitialOrbitWindow(), OrbitSamples(files, cs, referenceTime, g), OrbitSample(files, c, referenceTime, g));
      PushAllSnoc(InitialClockWindow(), ClockSamples(files, cs, referenceTime, g), ClockSample(files, c, referenceTime, g));
    }
  }

  // ---------------------------------------------------------------------------
  // File selection and nearest epoch
  // ---------------------------------------------------------------------------

  /** Seconds from the start of file `f` to `t`. */
  function SinceStart(f: Sp3File, t: EpochTime): real
  {
    t.WithFraction() - f.startTime.WithFraction()
  }

  predicate Covers(f: Sp3File, t: EpochTime)
  {
    0.0 <= SinceStart(f, t) < SecondsPerDay
  }

  /** The file scan from index `from`: the first file whose day contains `t`,
    * abandoned as soon as a file starts after `t`. */
  function FindSp3File(files: seq<Sp3File>, t: EpochTime, from: nat): (r: Option<nat>)
    decreases |files| - from
    ensures r.Some? ==> from <= r.value < |files| && Covers(files[r.value], t)
  {
    if from >= |files| then None
    else if SinceStart(files[from], t) < 0.0 then None
    else if SinceStart(files[from], t) < SecondsPerDay then Some(from)
    else FindSp3File(files, t, from + 1)
  }

  /** The scan selects file `i` exactly when `i` covers `t` and every earlier file
    * (from `from` on) started at least a day before `t`. */
  lemma {:induction false} FindSp3FileSelects(files: seq<Sp3File>, t: EpochTime, from: nat, i: nat)
    ensures FindSp3File(files, t, from) == Some(i) <==>
      from <= i < |files| && Covers(files[i], t)
      && forall j :: from <= j < i ==> SinceStart(files[j], t) >= SecondsPerDay
    decreases |files| - from
  {
    if from < |files| && SecondsPerDay <= SinceStart(files[from], t) {
      FindSp3FileSelects(files, t, from + 1, i);
    }
  }

  predicate StartsAscending(files: seq<Sp3File>)
  {
    forall i, j :: 0 <= i < j < |files| ==> files[i].startTime.WithFraction() <= files[j].startTime.WithFraction()
  }

  /** With files in start order, stopping at a later-starting file loses nothing:
    * if some file covers `t`, the scan finds a covering file no later than it. */
  lemma {:induction false} FindSp3FileComplete(files: seq<Sp3File>, t: EpochTime, from: nat, k: nat)
    requires StartsAscending(files)
    requires from <= k < |files| && Covers(files[k], t)
    ensures FindSp3File(files, t, from).Some?
    ensures FindSp3File(files, t, from).value <= k
    decreases k - from
  {
    assert SinceStart(files[from], t) >= SinceStart(files[k], t);
    if from < k && SecondsPerDay <= SinceStart(files[from], t) {
      FindSp3FileComplete(files, t, from + 1, k);
    }
  }

  function Distance(e: Sp3Epoch, t: EpochTime): real
  {
    var d := e.time.WithFraction() - t.WithFraction();
    if d < 0.0 then -d else d
  }

  /** The first of the epochs closest to `t`. */
  function NearestEpochId(epochs: seq<Sp3Epoch>, t: EpochTime): (k: nat)
    requires |epochs| > 0
    ensures k < |epochs|
    ensures forall j :: 0 <= j < |epochs| ==> Distance(epochs[k], t) <= Distance(epochs[j], t)
    ensures forall j :: 0 <= j < k ==> Distance(epochs[k], t) < Distance(epochs[j], t)
  {
    if |epochs| == 1 then 0
    else
      var k := NearestEpochId(epochs[..|epochs| - 1], t);
      assert forall j :: 0 <= j < |epochs| - 1 ==> epochs[..|epochs| - 1][j] == epochs[j];
      if Distance(epochs[|epochs| - 1], t) < Distance(epochs[k], t) then |epochs| - 1 else k
  }

  /** Where seeding starts in file `fileId`: `HalfInterpolationNumber` epochs before the nearest
    * one, or at `defaultEpochId` when the nearest epoch is closer than that to the file start. */
  function SeedStart(files: seq<Sp3File>, fileId: nat, t: EpochTime, defaultEpochId: nat): (c: Cursor)
    requires fileId < |files| && |files[fileId].epochs| > 0
    ensures c.fileId == fileId
    ensures defaultEpochId < |files[fileId].epochs| ==> InRange(files, c)
  {
    var nearest := NearestEpochId(files[fileId].epochs, t);
    Cursor(fileId, if nearest >= HalfInterpolationNumber then nearest - HalfInterpolationNumber else defaultEpochId)
  }

  // ---------------------------------------------------------------------------
  // Query guards
  // ---------------------------------------------------------------------------

  /** The id check as the source writes it: only ids strictly above the satellite count are refused. */
  predicate RefusesIdAsWritten(id: nat, numberOfSatellites: nat)
  {
    id > numberOfSatellites
  }

  /** The id check the model uses: every id without a window is refused. */
  predicate RefusesId(id: nat, numberOfSatellites: nat)
  {
    id >= numberOfSatellites
  }

  /** The check as written lets the id equal to the satellite count through, though the
    * windows are indexed 0 .. count-1: the query then reads past the last window. */
  lemma AsWrittenGuardAdmitsMissingWindow(numberOfSatellites: nat)
    ensures !RefusesIdAsWritten(numberOfSatellites, numberOfSatellites)
    ensures RefusesId(numberOfSatellites, numberOfSatellites)
  {
  }

  /** The corrected check admits an id exactly when it has a window, and otherwise agrees with the source. */
  lemma RefusesIdExactly(id: nat, numberOfSatellites: nat)
    ensures !RefusesId(id, numberOfSatellites) <==> id < numberOfSatellites
    ensures id != numberOfSatellites ==> (RefusesId(id, numberOfSatellites) <==> RefusesIdAsWritten(id, numberOfSatellites))
  {
  }

  class GnssSatellites {
    var isCalcEnabled: bool
    var files: seq<Sp3File>
    var currentEpochTime: EpochTime
    var referenceTime: EpochTime
    var referenceInterpolationId: nat
    var sp3FileId: nat
    var numberOfCalculatedSatellites: nat
    var orbit: seq<seq<Sample<seq<real>>>>
    var clock: seq<seq<Sample<real>>>

    /** One window per tracked satellite; while any satellite is tracked, the cursor is
      * on an epoch or past the chain, and the files from the cursor's on can be read. */
    ghost predicate Valid()
      reads this
    {
      sp3FileId <= |files|
      && |orbit| == numberOfCalculatedSatellites && |clock| == numberOfCalculatedSatellites
      && (forall g :: 0 <= g < |orbit| ==> |orbit[g]| == NumberOfInterpolation)
      && (forall g :: 0 <= g < |clock| ==> |clock[g]| == NumberOfInterpolation)
      && (numberOfCalculatedSatellites > 0 ==> Tracking())
    }

    ghost predicate Tracking()
      reads this
    {
      ChainFrom(files, sp3FileId, numberOfCalculatedSatellites) && Sound(files, CurrentCursor())
    }

    /** The epoch `Update` would read next. */
    function CurrentCursor(): Cursor
      reads this
    {
      Cursor(sp3FileId, referenceInterpolationId)
    }

    constructor (isCalcEnabled: bool)
      ensures Valid()
      ensures this.isCalcEnabled == isCalcEnabled
      ensures files == [] && orbit == [] && clock == []
      ensures numberOfCalculatedSatellites == 0 && sp3FileId == 0 && referenceInterpolationId == 0
    {
      this.isCalcEnabled := isCalcEnabled;
      files := [];
      currentEpochTime := EpochTime(0, 0.0);
      referenceTime := EpochTime(0, 0.0);
      referenceInterpolationId := 0;
      sp3FileId := 0;
      numberOfCalculatedSatellites := 0;
      orbit := [];
      clock := [];
    }

    /** Finds the file whose day contains `currentTime` and records its index. */
    method GetCurrentSp3File(currentTime: EpochTime) returns (found: bool)
      modifies this
      ensures found == FindSp3File(files, currentTime, 0).Some?
      ensures found ==> sp3FileId == FindSp3File(files, currentTime, 0).value
      ensures !found ==> sp3FileId == old(sp3FileId)
      ensures files == old(files) && referenceInterpolationId == old(referenceInterpolationId)
      ensures isCalcEnabled == old(isCalcEnabled) && numberOfCalculatedSatellites == old(numberOfCalculatedSatellites)
      ensures orbit == old(orbit) && clock == old(clock)
      ensures currentEpochTime == old(currentEpochTime) && referenceTime == old(referenceTime)
    {
      var i := 0;
      while i < |files|
        invariant 0 <= i <= |files|
        invariant FindSp3File(files, currentTime, 0) == FindSp3File(files, currentTime, i)
        invariant sp3FileId == old(sp3FileId)
      {
        var diff := currentTime.WithFraction() - files[i].startTime.WithFraction();
        if diff < 0.0 {
          return false;
        } else if diff < SecondsPerDay {
          sp3FileId := i;
          return true;
        }
        i := i + 1;
      }
      return false;
    }

    /** Pushes the epoch under the cursor into the orbit and clock windows of satellites 0 .. count-1. */
    method PushEpochSamples(count: nat)
      requires Valid() && Tracking() && sp3FileId < |files| && count <= numberOfCalculatedSatellites
      modifies this
      ensures Valid() && Tracking()
      ensures files == old(files) && sp3FileId == old(sp3FileId) && referenceInterpolationId == old(referenceInterpolationId)
      ensures isCalcEnabled == old(isCalcEnabled) && numberOfCalculatedSatellites == old(numberOfCalculatedSatellites)
      ensures currentEpochTime == old(currentEpochTime) && referenceTime == old(referenceTime)
      ensures orbit == PushedOrbit(old(orbit), files, CurrentCursor(), referenceTime, count)
      ensures clock == PushedClock(old(clock), files, CurrentCursor(), referenceTime, count)
    {
      var c := CurrentCursor();
      var nextOrbit, nextClock := orbit, clock;
      var g := 0;
      while g < count
        invariant 0 <= g <= count
        invariant nextOrbit == PushedOrbit(orbit, files, c, referenceTime, g)
        invariant nextClock == PushedClock(clock, files, c, referenceTime, g)
      {
        ghost var pushedOrbit := PushedOrbit(orbit, files, c, referenceTime, g + 1);
        ghost var pushedClock := PushedClock(clock, files, c, referenceTime, g + 1);
        nextOrbit := nextOrbit[g := PushAndPop(nextOrbit[g], OrbitSample(files, c, referenceTime, g))];
        nextClock := nextClock[g := PushAndPop(nextClock[g], ClockSample(files, c, referenceTime, g))];
        assert forall h :: 0 <= h < |nextOrbit| ==> nextOrbit[h] == pushedOrbit[h];
        assert forall h :: 0 <= h < |nextClock| ==> nextClock[h] == pushedClock[h];
        g := g + 1;
      }
      orbit, clock := nextOrbit, nextClock;
    }

    /** Moves the cursor to the next epoch, rolling over into the next file. */
    method AdvanceEpoch()
      requires Valid() && Tracking() && sp3FileId < |files|
      modifies this
      ensures Valid() && Tracking()
      ensures files == old(files) && orbit == old(orbit) && clock == old(clock)
      ensures CurrentCursor() == Step(files, old(CurrentCursor()))
      ensures isCalcEnabled == old(isCalcEnabled) && numberOfCalculatedSatellites == old(numberOfCalculatedSatellites)
      ensures currentEpochTime == old(currentEpochTime) && referenceTime == old(referenceTime)
    {
      var epochCount := |files[sp3FileId].epochs|;
      referenceInterpolationId := referenceInterpolationId + 1;
      if referenceInterpolationId >= epochCount {
        referenceInterpolationId := 0;
        sp3FileId := sp3FileId + 1;
      }
    }

    /**
     * Loads the ephemeris chain and seeds every satellite's windows.  The file
     * covering `startTime` is selected (without one, nothing else is set up);
     * the reference epoch is `HalfInterpolationNumber` epochs before the epoch
     * nearest to `startTime`, and nine rounds push one epoch each into every
     * window, following the chain across file boundaries.  Seeding stops early
     * if the chain runs out.
     */
    method Initialize(sp3Files: seq<Sp3File>, startTime: EpochTime)
      requires |sp3Files| > 0
      requires FindSp3File(sp3Files, startTime, 0).Some? ==>
        var selected := FindSp3File(sp3Files, startTime, 0).value;
        ChainFrom(sp3Files, selected, sp3Files[selected].numberOfSatellites)
      requires orbit == [] && clock == [] && numberOfCalculatedSatellites == 0
      requires sp3FileId == 0 && referenceInterpolationId == 0
      modifies this
      ensures Valid()
      ensures files == sp3Files && currentEpochTime == startTime && isCalcEnabled == old(isCalcEnabled)
      ensures FindSp3File(files, startTime, 0).None? ==>
        orbit == [] && clock == [] && numberOfCalculatedSatellites == 0
        && CurrentCursor() == Cursor(0, 0) && referenceTime == old(referenceTime)
      ensures FindSp3File(files, startTime, 0).Some? ==>
        var selected := FindSp3File(files, startTime, 0).value;
        var start := SeedStart(files, selected, startTime, 0);
        numberOfCalculatedSatellites == files[selected].numberOfSatellites
        && referenceTime == files[start.fileId].epochs[start.epochId].time
        && CurrentCursor() == After(files, start, NumberOfInterpolation)
        && orbit == SeededOrbit(files, Visit(files, start, NumberOfInterpolation), referenceTime, numberOfCalculatedSatellites)
        && clock == SeededClock(files, Visit(files, start, NumberOfInterpolation), referenceTime, numberOfCalculatedSatellites)
    {
      files := sp3Files;
      currentEpochTime := startTime;
      var found := GetCurrentSp3File(startTime);
      if !found {
        return;
      }
      SetUpWindows(startTime);
    }

    /**
     * `Initialize` once the file covering `startTime` is selected: sizes the
     * windows for that file's satellites, fixes the reference epoch and seeds.
     */
    method SetUpWindows(startTime: EpochTime)
      requires FindSp3File(files, startTime, 0) == Some(sp3FileId)
      requires ChainFrom(files, sp3FileId, files[sp3FileId].numberOfSatellites)
      requires orbit == [] && clock == [] && numberOfCalculatedSatellites == 0 && referenceInterpolationId == 0
      modifies this
      ensures Valid()
      ensures files == old(files) && currentEpochTime == old(currentEpochTime) && isCalcEnabled == old(isCalcEnabled)
      ensures var start := SeedStart(files, old(sp3FileId), startTime, 0);
        numberOfCalculatedSatellites == files[old(sp3FileId)].numberOfSatellites
        && referenceTime == files[start.fileId].epochs[start.epochId].time
        && CurrentCursor() == After(files, start, NumberOfInterpolation)
        && orbit == SeededOrbit(files, Visit(files, start, NumberOfInterpolation), referenceTime, numberOfCalculatedSatellites)
        && clock == SeededClock(files, Visit(files, start, NumberOfInterpolation), referenceTime, numberOfCalculatedSatellites)
    {
      ghost var start := PrepareWindows(startTime);
      SeedWindows(start);
    }

    /**
     * The part of `SetUpWindows` before seeding: one placeholder window per
     * satellite of the selected file, and the reference epoch half an
     * interpolation window before the epoch nearest `startTime`.
     */
    method PrepareWindows(startTime: EpochTime) returns (ghost start: Cursor)
      requires FindSp3File(files, startTime, 0) == Some(sp3FileId)
      requires ChainFrom(files, sp3FileId, files[sp3FileId].numberOfSatellites)
      requires orbit == [] && clock == [] && numberOfCalculatedSatellites == 0 && referenceInterpolationId == 0
      modifies this
      ensures Valid() && Tracking() && InRange(files, start)
      ensures files == old(files) && currentEpochTime == old(currentEpochTime) && isCalcEnabled == old(isCalcEnabled)
      ensures start == SeedStart(files, old(sp3FileId), startTime, 0) && CurrentCursor() == start
      ensures numberOfCalculatedSatellites == files[start.fileId].numberOfSatellites
      ensures referenceTime == files[start.fileId].epochs[start.epochId].time
      ensures orbit == SeededOrbit(files, [], referenceTime, numberOfCalculatedSatellites)
      ensures clock == SeededClock(files, [], referenceTime, numberOfCalculatedSatellites)
    {
      numberOfCalculatedSatellites := files[sp3FileId].numberOfSatellites;
      var nearest := NearestEpochId(files[sp3FileId].epochs, startTime);
      if nearest >= HalfInterpolationNumber {
        referenceInterpolationId := nearest - HalfInterpolationNumber;
      }
      start := CurrentCursor();
      referenceTime := files[sp3FileId].epochs[referenceInterpolationId].time;
      orbit := seq(numberOfCalculatedSatellites, _ => InitialOrbitWindow());
      clock := seq(numberOfCalculatedSatellites, _ => InitialClockWindow());
      NothingSeeded(files, referenceTime, numberOfCalculatedSatellites);
    }

    /**
     * The seeding rounds of `Initialize`: up to nine times, push the epoch under
     * the cursor into every window and move on, stopping if the chain runs out.
     */
    method SeedWindows(ghost start: Cursor)
      requires Valid() && Tracking()
      requires CurrentCursor() == start && InRange(files, start)
      requires orbit == SeededOrbit(files, [], referenceTime, numberOfCalculatedSatellites)
      requires clock == SeededClock(files, [], referenceTime, numberOfCalculatedSatellites)
      modifies this
      ensures Valid()
      ensures files == old(files) && currentEpochTime == old(currentEpochTime) && isCalcEnabled == old(isCalcEnabled)
      ensures referenceTime == old(referenceTime) && numberOfCalculatedSatellites == old(numberOfCalculatedSatellites)
      ensures CurrentCursor() == After(files, start, NumberOfInterpolation)
      ensures orbit == SeededOrbit(files, Visit(files, start, NumberOfInterpolation), referenceTime, numberOfCalculatedSatellites)
      ensures clock == SeededClock(files, Visit(files, start, NumberOfInterpolation), referenceTime, numberOfCalculatedSatellites)
    {
      ghost var done: seq<Cursor> := [];
      assert SeedProgress(files, start, done, start, NumberOfInterpolation);
      var i := 0;
      while i < NumberOfInterpolation && sp3FileId < |files|
        invariant 0 <= i <= NumberOfInterpolation
        invariant Valid() && Tracking()
        invariant files == old(files) && currentEpochTime == old(currentEpochTime) && isCalcEnabled == old(isCalcEnabled)
        invariant referenceTime == old(referenceTime) && numberOfCalculatedSatellites == old(numberOfCalculatedSatellites)
        invariant AllReadable(files, done, numberOfCalculatedSatellites)
        invariant SeedProgress(files, start, done, CurrentCursor(), NumberOfInterpolation - i)
        invariant orbit == SeededOrbit(files, done, referenceTime, numberOfCalculatedSatellites)
        invariant clock == SeededClock(files, done, referenceTime, numberOfCalculatedSatellites)
      {
        ghost var c := CurrentCursor();
        SeedProgressStep(files, start, done, c, NumberOfInterpolation - i);
        SeedRound(files, done, c, referenceTime, numberOfCalculatedSatellites);
        PushEpochSamples(numberOfCalculatedSatellites);
        done := done + [c];
        AdvanceEpoch();
        i := i + 1;
      }
      SeedProgressDone(files, start, done, CurrentCursor(), NumberOfInterpolation - i);
    }

    /**
     * One simulation step at `currentTime`.  When enabled, the current time is
     * recorded, and if it lies past the middle sample of satellite 0's orbit
     * window, the epoch under the cursor is pushed into the windows of the
     * first 32 satellites and the cursor moves to the next epoch.
     */
    method Update(currentTime: EpochTime)
      requires Valid()
      requires isCalcEnabled ==> sp3FileId < |files| && numberOfCalculatedSatellites > 0
      requires isCalcEnabled && NeedsNextEpoch(currentTime, referenceTime, orbit) ==>
        numberOfCalculatedSatellites >= UpdatedSatelliteCount
      modifies this
      ensures Valid()
      ensures files == old(files) && isCalcEnabled == old(isCalcEnabled) && referenceTime == old(referenceTime)
      ensures numberOfCalculatedSatellites == old(numberOfCalculatedSatellites)
      ensures !isCalcEnabled ==>
        currentEpochTime == old(currentEpochTime) && orbit == old(orbit) && clock == old(clock)
        && CurrentCursor() == old(CurrentCursor())
      ensures isCalcEnabled ==> currentEpochTime == currentTime
      ensures isCalcEnabled && !NeedsNextEpoch(currentTime, referenceTime, old(orbit)) ==>
        orbit == old(orbit) && clock == old(clock) && CurrentCursor() == old(CurrentCursor())
      ensures isCalcEnabled && NeedsNextEpoch(currentTime, referenceTime, old(orbit)) ==>
        orbit == PushedOrbit(old(orbit), files, old(CurrentCursor()), referenceTime, UpdatedSatelliteCount)
        && clock == PushedClock(old(clock), files, old(CurrentCursor()), referenceTime, UpdatedSatelliteCount)
        && CurrentCursor() == Step(files, old(CurrentCursor()))
    {
      if !isCalcEnabled {
        return;
      }
      currentEpochTime := currentTime;
      var diff := currentEpochTime.WithFraction() - referenceTime.WithFraction();
      var mediumTime := orbit[0][MiddleSampleIndex].offset;
      if diff > mediumTime {
        PushEpochSamples(UpdatedSatelliteCount);
        AdvanceEpoch();
      }
    }

    /** The time a query refers to: a time whose whole-second part is 0 means "now". */
    function TargetTime(time: EpochTime): EpochTime
      reads this
    {
      if time.timeS == 0 then currentEpochTime else time
    }

    /** Offset of the query time from the reference epoch. */
    function QueryOffset(time: EpochTime): real
      reads this
    {
      TargetTime(time).WithFraction() - referenceTime.WithFraction()
    }

    /**
     * Position of satellite `id` in metres (Earth-fixed), from its orbit window
     * through the trigonometric interpolator `calcPosition`.  Ids without a
     * window and query times outside [0, 1e6] s from the reference epoch give
     * the zero vector.
     */
    function GetPositionEcefM(id: nat, time: EpochTime,
                              calcPosition: (seq<Sample<seq<real>>>, real, real) -> seq<real>): (p: seq<real>)
      reads this
      requires Valid()
      ensures RefusesId(id, numberOfCalculatedSatellites) ==> p == Zero(3)
      ensures !InQueryRange(QueryOffset(time)) ==> p == Zero(3)
      ensures !RefusesId(id, numberOfCalculatedSatellites) && InQueryRange(QueryOffset(time)) ==>
        id < |orbit| && p == calcPosition(orbit[id], QueryOffset(time), OrbitalPeriodCorrection)
    {
      if RefusesId(id, numberOfCalculatedSatellites) then Zero(3)
      else
        var diff := TargetTime(time).WithFraction() - referenceTime.WithFraction();
        if diff < 0.0 || diff > MaxQueryOffset then Zero(3)
        else calcPosition(orbit[id], diff, OrbitalPeriodCorrection)
    }

    /**
     * Clock offset of satellite `id` in seconds: the clock window's
     * polynomial value, which is in microseconds, converted to seconds.  Ids
     * without a window and out-of-range query times give 0.
     */
    function GetClockS(id: nat, time: EpochTime, calcPolynomial: (seq<Sample<real>>, real) -> real): (c: real)
      reads this
      requires Valid()
      ensures RefusesId(id, numberOfCalculatedSatellites) ==> c == 0.0
      ensures !InQueryRange(QueryOffset(time)) ==> c == 0.0
      ensures !RefusesId(id, numberOfCalculatedSatellites) && InQueryRange(QueryOffset(time)) ==>
        id < |clock| && c * 1000000.0 == calcPolynomial(clock[id], QueryOffset(time))
    {
      if RefusesId(id, numberOfCalculatedSatellites) then 0.0
      else
        var diff := TargetTime(time).WithFraction() - referenceTime.WithFraction();
        if diff < 0.0 || diff > MaxQueryOffset then 0.0
        else calcPolynomial(clock[id], diff) * SecondsPerMicrosecond
    }

    /**
     * `GetPositionEcefM` with the id check as the source writes it.  `None`
     * stands for the read of `orbit[id]` past the last window, which the
     * check lets through for `id == numberOfCalculatedSatellites`; every other
     * answer is the corrected getter's.
     */
    function PositionAsWritten(id: nat, time: EpochTime,
                               calcPosition: (seq<Sample<seq<real>>>, real, real) -> seq<real>): (r: Option<seq<real>>)
      reads this
      requires Valid()
      ensures r.None? <==> id == numberOfCalculatedSatellites && InQueryRange(QueryOffset(time))
      ensures r.Some? ==> r.value == GetPositionEcefM(id, time, calcPosition)
    {
      if RefusesIdAsWritten(id, numberOfCalculatedSatellites) then Some(Zero(3))
      else
        var diff := TargetTime(time).WithFraction() - referenceTime.WithFraction();
        if diff < 0.0 || diff > MaxQueryOffset then Some(Zero(3))
        else if id < |orbit| then Some(calcPosition(orbit[id], diff, OrbitalPeriodCorrection))
        else None
    }

    /** `GetClockS` with the id check as written; `None` is the read of `clock[id]` past the last window. */
    function ClockAsWritten(id: nat, time: EpochTime, calcPolynomial: (seq<Sample<real>>, real) -> real): (r: Option<real>)
      reads this
      requires Valid()
      ensures r.None? <==> id == numberOfCalculatedSatellites && InQueryRange(QueryOffset(time))
      ensures r.Some? ==> r.value == GetClockS(id, time, calcPolynomial)
    {
      if RefusesIdAsWritten(id, numberOfCalculatedSatellites) then Some(0.0)
      else
        var diff := TargetTime(time).WithFraction() - referenceTime.WithFraction();
        if diff < 0.0 || diff > MaxQueryOffset then Some(0.0)
        else if id < |clock| then Some(calcPolynomial(clock[id], diff) * SecondsPerMicrosecond)
        else None
    }

    /** A query whose whole-second part is 0 is answered at the current epoch time; its fraction is ignored. */
    lemma ZeroSecondQueryIsNow(id: nat, fraction: real,
                               calcPosition: (seq<Sample<seq<real>>>, real, real) -> seq<real>,
                               calcPolynomial: (seq<Sample<real>>, real) -> real)
      requires Valid()
      ensures GetPositionEcefM(id, EpochTime(0, fraction), calcPosition) == GetPositionEcefM(id, currentEpochTime, calcPosition)
      ensures GetClockS(id, EpochTime(0, fraction), calcPolynomial) == GetClockS(id, currentEpochTime, calcPolynomial)
    {
      assert TargetTime(EpochTime(0, fraction)) == TargetTime(currentEpochTime);
    }
  }

  /** Whether `Update` at `currentTime` pushes a new epoch: the time is past satellite 0's middle sample. */
  predicate NeedsNextEpoch(currentTime: EpochTime, referenceTime: EpochTime, orbit: seq<seq<Sample<seq<real>>>>)
    requires |orbit| > 0 && |orbit[0]| > MiddleSampleIndex
  {
    currentTime.WithFraction() - referenceTime.WithFraction() > orbit[0][MiddleSampleIndex].offset
  }

  /** Whether a query at `offset` from the reference epoch is answered. */
  predicate InQueryRange(offset: real)
  {
    0.0 <= offset <= MaxQueryOffset
  }

  /**
   * When nine rounds of seeding find epochs, each window holds exactly those
   * nine consecutive epochs, oldest first, and the first one is the reference
   * epoch itself (offset 0).
   */
  lemma SeededWindowIsNineEpochs(files: seq<Sp3File>, start: Cursor, referenceTime: EpochTime, g: nat)
    requires ChainFrom(files, start.fileId, g + 1) && InRange(files, start)
    requires referenceTime == files[start.fileId].epochs[start.epochId].time
    requires |Visit(files, start, NumberOfInterpolation)| == NumberOfInterpolation
    ensures PushAll(InitialOrbitWindow(), OrbitSamples(files, Visit(files, start, NumberOfInterpolation), referenceTime, g))
         == OrbitSamples(files, Visit(files, start, NumberOfInterpolation), referenceTime, g)
    ensures PushAll(InitialClockWindow(), ClockSamples(files, Visit(files, start, NumberOfInterpolation), referenceTime, g))
         == ClockSamples(files, Visit(files, start, NumberOfInterpolation), referenceTime, g)
    ensures OrbitSamples(files, Visit(files, start, NumberOfInterpolation), referenceTime, g)[0].offset == 0.0
    ensures forall j :: 0 <= j < NumberOfInterpolation - 1 ==>
      Visit(files, start, NumberOfInterpolation)[j + 1] == Step(files, Visit(files, start, NumberOfInterpolation)[j])
  {
    var cs := Visit(files, start, NumberOfInterpolation);
    PushAllReplacesWindow(InitialOrbitWindow(), OrbitSamples(files, cs, referenceTime, g));
    PushAllReplacesWindow(InitialClockWindow(), ClockSamples(files, cs, referenceTime, g));
    VisitConsecutive(files, start, NumberOfInterpolation);
  }

  /**
   * A full seeding centres the window on the epoch nearest the start time: when
   * that epoch is at least four epochs into the selected file `f`, the fifth
   * epoch read, the window's middle sample, is the nearest one.
   */
  lemma SeedingCentresOnNearest(files: seq<Sp3File>, f: nat, t0: EpochTime)
    requires f < |files| && |files[f].epochs| > 0
    requires NearestEpochId(files[f].epochs, t0) >= HalfInterpolationNumber
    requires |Visit(files, SeedStart(files, f, t0, 0), NumberOfInterpolation)| == NumberOfInterpolation
    ensures Visit(files, SeedStart(files, f, t0, 0), NumberOfInterpolation)[MiddleSampleIndex]
         == Cursor(f, NearestEpochId(files[f].epochs, t0))
  {
    var nearest := NearestEpochId(files[f].epochs, t0);
    var start := SeedStart(files, f, t0, 0);
    var cs := Visit(files, start, NumberOfInterpolation);
    assert start == Cursor(f, nearest - HalfInterpolationNumber);
    VisitConsecutive(files, start, NumberOfInterpolation);
    assert cs[1] == Cursor(f, nearest - 3);
    assert cs[2] == Cursor(f, nearest - 2);
    assert cs[3] == Cursor(f, nearest - 1);
  }

  /**
   * After that full seeding, `Update` first slides the windows exactly when time
   * passes the epoch nearest the start time.
   */
  lemma FirstSlideAtNearestEpoch(files: seq<Sp3File>, f: nat, t0: EpochTime, t: EpochTime, n: nat)
    requires f < |files| && n > 0 && ChainFrom(files, f, n)
    requires NearestEpochId(files[f].epochs, t0) >= HalfInterpolationNumber
    requires |Visit(files, SeedStart(files, f, t0, 0), NumberOfInterpolation)| == NumberOfInterpolation
    ensures var start := SeedStart(files, f, t0, 0);
      var ref := files[f].epochs[start.epochId].time;
      NeedsNextEpoch(t, ref, SeededOrbit(files, Visit(files, start, NumberOfInterpolation), ref, n))
      <==> t.WithFraction() > files[f].epochs[NearestEpochId(files[f].epochs, t0)].time.WithFraction()
  {
    var start := SeedStart(files, f, t0, 0);
    var cs := Visit(files, start, NumberOfInterpolation);
    var ref := files[f].epochs[start.epochId].time;
    SeedingCentresOnNearest(files, f, t0);
    assert ChainFrom(files, f, 1);
    SeededWindowIsNineEpochs(files, start, ref, 0);
    assert SeededOrbit(files, cs, ref, n)[0][MiddleSampleIndex] == OrbitSample(files, cs[MiddleSampleIndex], ref, 0);
  }
}
