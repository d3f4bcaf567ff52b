/**
 * The elapsed-time rendering of `timer_end!`: the elapsed time is split into
 * whole seconds and the sub-second milliseconds, microseconds and nanoseconds,
 * and the largest nonzero unit picks one of four forms.
 */
module Duration {
  import opened Wrappers
  import opened Decimal

  const NanosPerMicro: nat := 1_000
  const NanosPerMilli: nat := 1_000_000
  const NanosPerSecond: nat := 1_000_000_000

  datatype Unit = Seconds | Millis | Micros | Nanos

  /**
   * What a rendering shows: its unit, the number before the point, and the
   * number after it (no point at all in the nanosecond form).
   */
  datatype Reading = Reading(unit: Unit, whole: nat, fraction: Option<nat>)

  /** The unit-escalation choice, on the same integer parts the source computes. */
  function Read(elapsed: nat): Reading
  {
    var secs := elapsed / NanosPerSecond;
    var subsecNanos := elapsed % NanosPerSecond;
    var millis := subsecNanos / NanosPerMilli;
    var micros := (subsecNanos / NanosPerMicro) % 1000;
    var nanos := subsecNanos % 1000;
    if secs != 0 then Reading(Seconds, secs, Some(millis))
    else if millis > 0 then Reading(Millis, millis, Some(micros))
    else if micros > 0 then Reading(Micros, micros, Some(nanos))
    else Reading(Nanos, subsecNanos, None)
  }

  function Suffix(u: Unit): string
  {
    match u
    case Seconds => "s"
    case Millis => "ms"
    case Micros => "\U{00B5}s"
    case Nanos => "ns"
  }

  /** `"{whole}.{fraction}{unit}"`, or `"{whole}ns"`; the fraction is not zero-padded. */
  function Show(r: Reading): string
  {
    NatToString(r.whole) + (match r.fraction case Some(f) => "." + NatToString(f) case None => "") + Suffix(r.unit)
  }

  /**
   * A fraction exactly when the unit is not nanoseconds, and below 1000 then;
   * the whole number never exceeds the elapsed time.
   */
  lemma ReadShape(elapsed: nat)
    ensures Shaped(Read(elapsed))
    ensures Read(elapsed).fraction.Some? ==> Read(elapsed).fraction.value < 1000
    ensures Read(elapsed).whole <= elapsed
  {
  }

  /** Every shown reading ends with the suffix of its unit. */
  lemma ShowEndsWithUnit(r: Reading)
    ensures HasSuffix(Show(r), Suffix(r.unit))
  {
    var head := NatToString(r.whole) + (match r.fraction case Some(f) => "." + NatToString(f) case None => "");
    assert Show(r) == head + Suffix(r.unit);
    assert Show(r)[|head|..] == Suffix(r.unit);
  }

  /**
   * The text `timer_end!` prints for an elapsed time of `elapsed` nanoseconds.
   */
  function Format(elapsed: nat): string
  {
    Show(Read(elapsed))
  }

  /** Exactly one form applies, and which one is decided by the magnitude alone. */
  lemma UnitByMagnitude(elapsed: nat)
    ensures Read(elapsed).unit == Seconds <==> NanosPerSecond <= elapsed
    ensures Read(elapsed).unit == Millis <==> NanosPerMilli <= elapsed < NanosPerSecond
    ensures Read(elapsed).unit == Micros <==> NanosPerMicro <= elapsed < NanosPerMilli
    ensures Read(elapsed).unit == Nanos <==> elapsed < NanosPerMicro
  {
  }

  /**
   * The shown numbers are the elapsed time truncated, never rounded: the whole
   * count of the unit, then the whole count of the next smaller unit left over
   * (always below 1000), with at most one such smaller unit cut off.
   */
  lemma ReadTruncates(elapsed: nat)
    ensures var r := Read(elapsed);
      match r.unit
      case Seconds =>
        r.fraction.Some? && r.fraction.value < 1000 &&
        r.whole * NanosPerSecond + r.fraction.value * NanosPerMilli <= elapsed
          < r.whole * NanosPerSecond + (r.fraction.value + 1) * NanosPerMilli
      case Millis =>
        r.fraction.Some? && r.fraction.value < 1000 &&
        r.whole * NanosPerMilli + r.fraction.value * NanosPerMicro <= elapsed
          < r.whole * NanosPerMilli + (r.fraction.value + 1) * NanosPerMicro
      case Micros =>
        r.fraction.Some? && r.fraction.value < 1000 &&
        r.whole * NanosPerMicro + r.fraction.value == elapsed
      case Nanos =>
        r.fraction == None && r.whole == elapsed
  {
  }

  /* Reading a rendering back. The rendering is for display and loses the
     nanoseconds it cuts off, but it loses nothing it shows. */

  predicate HasSuffix(s: string, t: string)
  {
    |t| <= |s| && s[|s| - |t|..] == t
  }

  /** The first position of `c` in `s`, if any. */
  function IndexOf(s: string, c: char): (k: Option<nat>)
    ensures k.Some? ==> k.value < |s| && s[k.value] == c && c !in s[..k.value]
    ensures k.None? ==> c !in s
  {
    if s == [] then None
    else if s[0] == c then Some(0)
    else match IndexOf(s[1..], c)
      case Some(k) => Some(k + 1)
      case None => None
  }

  function ParseNumber(s: string): Option<nat>
  {
    if s != [] && IsDigits(s) then Some(DigitsValue(s)) else None
  }

  /** `"{whole}.{fraction}"` followed by unit `u`, already stripped of the unit. */
  function ParsePointed(u: Unit, body: string): Option<Reading>
  {
    match IndexOf(body, '.')
    case None => None
    case Some(k) =>
      match (ParseNumber(body[..k]), ParseNumber(body[k + 1..]))
      case (Some(w), Some(f)) => Some(Reading(u, w, Some(f)))
      case _ => None
  }

  function ParseReading(s: string): Option<Reading>
  {
    if HasSuffix(s, "ms") then ParsePointed(Millis, s[..|s| - 2])
    else if HasSuffix(s, Suffix(Micros)) then ParsePointed(Micros, s[..|s| - 2])
    else if HasSuffix(s, "ns") then
      match ParseNumber(s[..|s| - 2])
      case Some(n) => Some(Reading(Nanos, n, None))
      case None => None
    else if HasSuffix(s, "s") then ParsePointed(Seconds, s[..|s| - 1])
    else None
  }

  /** A reading of the shape `Read` produces: a fraction exactly when the unit is not nanoseconds. */
  predicate Shaped(r: Reading)
  {
    r.fraction.None? <==> r.unit == Nanos
  }

  lemma {:induction false} IndexOfAfterDigits(a: string, b: string)
    requires IsDigits(a)
    ensures IndexOf(a + "." + b, '.') == Some(|a|)
  {
    if a != [] {
      assert (a + "." + b)[1..] == a[1..] + "." + b;
      IndexOfAfterDigits(a[1..], b);
    }
  }

  lemma ParseNumberOfNatToString(n: nat)
    ensures ParseNumber(NatToString(n)) == Some(n)
  {
    DigitsValueOfNatToString(n);
  }

  lemma ParsePointedShow(u: Unit, w: nat, f: nat)
    ensures ParsePointed(u, NatToString(w) + "." + NatToString(f)) == Some(Reading(u, w, Some(f)))
  {
    var a, b := NatToString(w), NatToString(f);
    var body := a + "." + b;
    IndexOfAfterDigits(a, b);
    assert body[..|a|] == a && body[|a| + 1..] == b;
    ParseNumberOfNatToString(w);
    ParseNumberOfNatToString(f);
  }

  lemma ParseShowNanos(w: nat)
    ensures ParseReading(Show(Reading(Nanos, w, None))) == Some(Reading(Nanos, w, None))
  {
    var d := NatToString(w);
    var s := Show(Reading(Nanos, w, None));
    assert s == d + "ns";
    assert s[|s| - 2..] == "ns" && s[..|s| - 2] == d;
    assert s[|s| - 1] == 's' && s[|s| - 2] == 'n';
    assert !HasSuffix(s, "ms") && !HasSuffix(s, Suffix(Micros));
    ParseNumberOfNatToString(w);
  }

  /** The text before the unit of a pointed rendering ends in a digit. */
  lemma PointedEndsInDigit(w: nat, f: nat)
    ensures var body := NatToString(w) + "." + NatToString(f);
      IsDigit(body[|body| - 1])
  {
  }

  lemma ParseShowSeconds(w: nat, f: nat)
    ensures ParseReading(Show(Reading(Seconds, w, Some(f)))) == Some(Reading(Seconds, w, Some(f)))
  {
    var body := NatToString(w) + "." + NatToString(f);
    var s := Show(Reading(Seconds, w, Some(f)));
    assert s == body + "s";
    PointedEndsInDigit(w, f);
    assert s[|s| - 2] == body[|body| - 1];
    assert !HasSuffix(s, "ms") && !HasSuffix(s, Suffix(Micros)) && !HasSuffix(s, "ns");
    assert s[|s| - 1..] == "s" && s[..|s| - 1] == body;
    ParsePointedShow(Seconds, w, f);
  }

  lemma ParseShowMillis(w: nat, f: nat)
    ensures ParseReading(Show(Reading(Millis, w, Some(f)))) == Some(Reading(Millis, w, Some(f)))
  {
    var body := NatToString(w) + "." + NatToString(f);
    var s := Show(Reading(Millis, w, Some(f)));
    assert s == body + "ms";
    assert s[|s| - 2..] == "ms" && s[..|s| - 2] == body;
    ParsePointedShow(Millis, w, f);
  }

  lemma ParseShowMicros(w: nat, f: nat)
    ensures ParseReading(Show(Reading(Micros, w, Some(f)))) == Some(Reading(Micros, w, Some(f)))
  {
    var body := NatToString(w) + "." + NatToString(f);
    var s := Show(Reading(Micros, w, Some(f)));
    assert s == body + Suffix(Micros);
    assert s[|s| - 2] == '\U{00B5}';
    assert !HasSuffix(s, "ms");
    assert s[|s| - 2..] == Suffix(Micros) && s[..|s| - 2] == body;
    ParsePointedShow(Micros, w, f);
  }

  /** Every rendering reads back as the reading it shows. */
  lemma ParseShow(r: Reading)
    requires Shaped(r)
    ensures ParseReading(Show(r)) == Some(r)
  {
    if r.unit == Nanos {
      ParseShowNanos(r.whole);
    } else {
      match r.unit {
        case Seconds => ParseShowSeconds(r.whole, r.fraction.value);
        case Millis => ParseShowMillis(r.whole, r.fraction.value);
        case Micros => ParseShowMicros(r.whole, r.fraction.value);
      }
    }
  }

  /** The elapsed time reads back from its rendering as the reading it was rendered from. */
  lemma ParseFormat(elapsed: nat)
    ensures ParseReading(Format(elapsed)) == Some(Read(elapsed))
  {
    ReadShape(elapsed);
    ParseShow(Read(elapsed));
  }

  /** Two elapsed times render alike exactly when they read alike. */
  lemma FormatDistinguishesReadings(a: nat, b: nat)
    ensures Format(a) == Format(b) <==> Read(a) == Read(b)
  {
    ParseFormat(a);
    ParseFormat(b);
  }

  /* The documented renderings; 1.005s shows as "1.5s", the fraction being unpadded. */

  lemma FormatZero()
    ensures Format(0) == "0ns"
  {
  }

  lemma FormatJustUnderMicro()
    ensures Format(999) == "999ns"
  {
  }

  lemma FormatMicros()
    ensures Format(1_500) == "1.500\U{00B5}s"
  {
  }

  lemma FormatMillis()
    ensures Format(2_500_000) == "2.500ms"
  {
  }

  lemma FormatSeconds()
    ensures Format(1_200_000_000) == "1.200s"
  {
  }

  lemma FormatUnpaddedFraction()
    ensures Format(1_005_000_000) == "1.5s"
    ensures Format(1_050_000_000) == "1.50s"
  {
  }
}
