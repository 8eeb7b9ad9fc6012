/** The cron expression of a catalog entry: a stable stagger, and when the schedule has a constant
    period over an unbounded timeline of minutes. */
module CronSchedule {
  import opened Ordering

  datatype Field = Every | Exactly(value: nat) | Range(first: nat, last: nat, step: nat)

  datatype Cron = Cron(minute: Field, hour: Field)

  predicate Matches(f: Field, x: nat) {
    match f
    case Every => true
    case Exactly(value) => x == value
    case Range(first, last, step) => first <= x <= last && step != 0 && (x - first) % step == 0
  }

  /** Whether the schedule fires at minute `t`, counted from some midnight. */
  predicate Fires(cron: Cron, t: nat) {
    Matches(cron.minute, t % 60) && Matches(cron.hour, t / 60 % 24)
  }

  /** `_stagger_minute`, from the digest of the source id. */
  function Stagger(digest: nat, modulo: nat): nat
    requires modulo != 0
  {
    digest % modulo
  }

  /** `cron_for`; None is the division by zero that a cadence of zero ends in. */
  function CronFor(cadence: nat, digest: nat): Option<Cron> {
    if cadence == 0 then None
    else if cadence < 60 then Some(Cron(Range(Stagger(digest, cadence), 59, cadence), Every))
    else
      var hours := cadence / 60;
      if hours == 1 then Some(Cron(Exactly(Stagger(digest, 60)), Every))
      else Some(Cron(Exactly(Stagger(digest, 60)), Range(Stagger(digest, hours), 23, hours)))
  }

  /** The schedule fires at exactly the minutes congruent to `phase`. */
  ghost predicate Periodic(cron: Cron, cadence: nat, phase: nat) {
    phase < cadence && forall t: nat :: Fires(cron, t) <==> t % cadence == phase
  }

  /** A cadence that divides the hour, or counts hours that divide the day. */
  predicate Divides(cadence: nat) {
    cadence != 0 &&
    if cadence < 60 then 60 % cadence == 0 else cadence % 60 == 0 && 24 % (cadence / 60) == 0
  }

  /** The remainder of the digest by the cadence, or by the hour and by the number of hours. */
  function Phase(cadence: nat, digest: nat): nat
    requires cadence != 0
  {
    if cadence < 60 then digest % cadence else digest % 60 + 60 * (digest % (cadence / 60))
  }

  lemma FactorAwayFromZero(k: int, m: int)
    requires m >= 0
    ensures k >= 1 ==> k * m >= m
    ensures k <= -1 ==> k * m + m <= 0
  {
    assert k >= 1 ==> (k - 1) * m >= 0;
    assert k <= -1 ==> (-1 - k) * m >= 0;
    assert k * m == (k - 1) * m + m && (-1 - k) * m == -m - k * m;
  }

  lemma ModuloIs(x: nat, m: nat, q: int, r: nat)
    requires r < m && x == q * m + r
    ensures x % m == r && x / m == q
  {
    var k := x / m - q;
    assert x == x / m * m + x % m;
    assert k * m == x / m * m - q * m;
    FactorAwayFromZero(k, m);
  }

  /** Reducing by a multiple first does not change a remainder. */
  lemma RemainderOfRemainder(x: nat, m: nat, k: nat)
    requires m > 0 && k > 0
    ensures x % (k * m) % m == x % m
  {
    var big := k * m;
    var y, q := x % big, x / big;
    assert x == (q * k + y / m) * m + y % m by {
      assert x == q * big + y && y == y / m * m + y % m;
      assert q * big == (q * k) * m;
      assert (q * k) * m + y / m * m == (q * k + y / m) * m;
    }
    ModuloIs(x, m, q * k + y / m, y % m);
  }

  lemma QuotientAndRest(x: nat, m: nat)
    requires m > 0
    ensures x == x / m * m + x % m
  {
  }

  lemma StepsFromOffset(y: nat, step: nat, offset: nat)
    requires offset < step
    ensures offset <= y && (y - offset) % step == 0 <==> y % step == offset
  {
    if offset <= y && (y - offset) % step == 0 {
      QuotientAndRest(y - offset, step);
      ModuloIs(y, step, (y - offset) / step, offset);
    }
    if y % step == offset {
      QuotientAndRest(y, step);
      FactorAwayFromZero(y / step, step);
      ModuloIs(y - offset, step, y / step, 0);
    }
  }

  /** A stepped range whose step divides the span picks exactly one residue class. */
  lemma SteppedRangeIsResidue(x: nat, span: nat, step: nat, offset: nat)
    requires step > 0 && span > 0 && span % step == 0 && offset < step
    ensures Matches(Range(offset, span - 1, step), x % span) <==> x % step == offset
  {
    var k := span / step;
    QuotientAndRest(span, step);
    assert span == k * step && k > 0;
    RemainderOfRemainder(x, step, k);
    StepsFromOffset(x % span, step, offset);
  }

  /** Minutes and hours combine: a residue mod `60 * h` is a minute and a residue of the hour. */
  lemma MinuteAndHour(t: nat, h: nat, minute: nat, hour: nat)
    requires h > 0 && minute < 60 && hour < h
    ensures t % (60 * h) == minute + 60 * hour <==> t % 60 == minute && t / 60 % h == hour
  {
    var hours := t / 60;
    var q := hours / h;
    assert t == 60 * hours + t % 60 && hours == q * h + hours % h;
    assert 60 * (q * h) == q * (60 * h);
    assert t == q * (60 * h) + (60 * (hours % h) + t % 60);
    assert 60 * (hours % h) + t % 60 < 60 * h;
    ModuloIs(t, 60 * h, q, 60 * (hours % h) + t % 60);
  }

  lemma DividingCadenceIsPeriodic(cadence: nat, digest: nat)
    requires Divides(cadence)
    ensures Periodic(CronFor(cadence, digest).value, cadence, Phase(cadence, digest))
  {
    var cron, phase := CronFor(cadence, digest).value, Phase(cadence, digest);
    forall t: nat ensures Fires(cron, t) <==> t % cadence == phase {
      if cadence < 60 {
        SteppedRangeIsResidue(t, 60, cadence, phase);
      } else {
        var h := cadence / 60;
        MinuteAndHour(t, h, digest % 60, digest % h);
        if h != 1 {
          SteppedRangeIsResidue(t / 60, 24, h, digest % h);
        }
      }
    }
  }

  /** Two firings of a periodic schedule are a multiple of the period apart. */
  lemma FiringsAreCongruent(cron: Cron, cadence: nat, phase: nat, t: nat, gap: nat)
    requires Periodic(cron, cadence, phase) && Fires(cron, t) && Fires(cron, t + gap)
    ensures gap % cadence == 0
  {
    assert t % cadence == phase && (t + gap) % cadence == phase;
    var a, b := t / cadence, (t + gap) / cadence;
    QuotientAndRest(t, cadence);
    QuotientAndRest(t + gap, cadence);
    hide Periodic, Fires, Matches;
    assert gap == b * cadence - a * cadence == (b - a) * cadence;
    ModuloIs(gap, cadence, b - a, 0);
  }

  lemma PeriodicFiresAgain(cron: Cron, cadence: nat, phase: nat, t: nat)
    requires Periodic(cron, cadence, phase) && Fires(cron, t)
    ensures Fires(cron, t + cadence)
  {
    ModuloIs(t + cadence, cadence, t / cadence + 1, phase);
  }

  lemma MinutesOfHours(cadence: nat)
    requires cadence > 0 && cadence % 60 == 0 && 1440 % cadence == 0
    ensures cadence / 60 > 0 && 24 % (cadence / 60) == 0
  {
    var h, q := cadence / 60, 1440 / cadence;
    assert 1440 == q * (60 * h) == 60 * (q * h);
    ModuloIs(24, h, q, 0);
  }

  lemma ShortCadenceDivides(cadence: nat, digest: nat, phase: nat)
    requires 0 < cadence < 60 && Periodic(CronFor(cadence, digest).value, cadence, phase)
    ensures Divides(cadence)
  {
    var cron, t := CronFor(cadence, digest).value, Stagger(digest, cadence);
    assert t < cadence && t % 60 == t && (t + 60) % 60 == t;
    FiringsAreCongruent(cron, cadence, phase, t, 60);
  }

  lemma SameMinute(t: nat, gap: nat)
    requires (t + gap) % 60 == t % 60
    ensures gap % 60 == 0
  {
  }

  lemma SameTimeNextDay(t: nat)
    ensures (t + 1440) % 60 == t % 60 && (t + 1440) / 60 % 24 == t / 60 % 24
  {
  }

  lemma LongCadenceDivides(cadence: nat, digest: nat, phase: nat)
    requires cadence >= 60 && Periodic(CronFor(cadence, digest).value, cadence, phase)
    ensures Divides(cadence)
  {
    var cron := CronFor(cadence, digest).value;
    ModuloIs(phase, cadence, 0, phase);
    assert Fires(cron, phase);
    PeriodicFiresAgain(cron, cadence, phase, phase);
    SameMinute(phase, cadence);
    SameTimeNextDay(phase);
    FiringsAreCongruent(cron, cadence, phase, phase, 1440);
    MinutesOfHours(cadence);
  }

  /** `cron_for` keeps its promise of a constant period for exactly the cadences that divide the hour
      or the day, whatever the stagger. */
  lemma ConstantPeriod(cadence: nat, digest: nat)
    requires cadence > 0
    ensures (exists phase: nat :: Periodic(CronFor(cadence, digest).value, cadence, phase)) <==> Divides(cadence)
    ensures Divides(cadence) ==>
              Periodic(CronFor(cadence, digest).value, cadence,
                       if cadence < 60 then digest % cadence else digest % 60 + 60 * (digest % (cadence / 60)))
  {
    if Divides(cadence) {
      DividingCadenceIsPeriodic(cadence, digest);
    } else if phase: nat :| Periodic(CronFor(cadence, digest).value, cadence, phase) {
      if cadence < 60 {
        ShortCadenceDivides(cadence, digest, phase);
      } else {
        LongCadenceDivides(cadence, digest, phase);
      }
    }
  }

  /** When a schedule fires, whatever its cadence: below an hour, in every hour from the offset on in steps of the
      cadence; from an hour on, at one minute of the hours from the offset on in steps of whole hours. */
  lemma FiresAt(cadence: nat, digest: nat, t: nat)
    ensures CronFor(cadence, digest).None? <==> cadence == 0
    ensures 0 < cadence < 60 ==>
              (Fires(CronFor(cadence, digest).value, t) <==>
                 t % 60 >= digest % cadence && (t % 60 - digest % cadence) % cadence == 0)
    ensures 60 <= cadence < 120 ==> (Fires(CronFor(cadence, digest).value, t) <==> t % 60 == digest % 60)
    ensures cadence >= 120 ==>
              var hours := cadence / 60;
              (Fires(CronFor(cadence, digest).value, t) <==>
                 && t % 60 == digest % 60
                 && t / 60 % 24 >= digest % hours && (t / 60 % 24 - digest % hours) % hours == 0)
  {
  }
}
