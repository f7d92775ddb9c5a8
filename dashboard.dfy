/**
 * The values the dashboard derives before rendering: the greeting, the herd
 * statistics and their percentage badges, the upcoming-events and
 * overdue-vaccination lists, and how many rows of each are shown.
 *
 * The clock is an input: the current hour and minute, today's ISO date
 * string, and today's midnight (UTC) as milliseconds since the epoch.
 */
module Dashboard {
  import opened Wrappers
  import opened ArrayOps
  import opened IsoDates
  import CommoditiesService

  // ---------------------------------------------------------------------------
  // Greeting

  /** The three greetings, shown as "🌅 Bom dia", "☀️ Boa tarde" and "🌙 Boa noite". */
  datatype Greeting = BomDia | BoaTarde | BoaNoite

  /** A reading of `getHours()` and `getMinutes()`. */
  predicate ValidTime(hour: int, minute: int) {
    0 <= hour < 24 && 0 <= minute < 60
  }

  /** Minutes since midnight. */
  function MinuteOfDay(hour: int, minute: int): int {
    60 * hour + minute
  }

  /**
   * `getGreeting`, as written: morning from 4:00 to 12:30, afternoon from
   * 13:00 to 18:30, and night at every other time, including 12:31 to 12:59.
   */
  function GetGreeting(hour: int, minute: int): (g: Greeting)
    ensures ValidTime(hour, minute) ==>
      (g == BomDia <==> 4 * 60 <= MinuteOfDay(hour, minute) <= 12 * 60 + 30)
    ensures ValidTime(hour, minute) ==>
      (g == BoaTarde <==> 13 * 60 <= MinuteOfDay(hour, minute) <= 18 * 60 + 30)
    ensures ValidTime(hour, minute) ==>
      (g == BoaNoite <==>
        MinuteOfDay(hour, minute) < 4 * 60 ||
        12 * 60 + 30 < MinuteOfDay(hour, minute) < 13 * 60 ||
        18 * 60 + 30 < MinuteOfDay(hour, minute))
  {
    if hour >= 4 && (hour < 12 || (hour == 12 && minute <= 30)) then BomDia
    else if hour >= 13 && (hour < 18 || (hour == 18 && minute <= 30)) then BoaTarde
    else BoaNoite
  }

  /** At 12:45 the dashboard wishes a good night. */
  lemma GreetingNoonGap()
    ensures GetGreeting(12, 45) == BoaNoite
    ensures GreetingIntended(12, 45) == BoaTarde
  {
  }

  /**
   * The greeting with the gap closed. The comments beside the code disagree:
   * they end the morning at 12:30 and start the afternoon at 13:00, but limit
   * the night to before 4:00 and from 18:30 on. This reading keeps 18:30 in the
   * afternoon, as the code does, and starts the afternoon right after 12:30.
   */
  function GreetingIntended(hour: int, minute: int): (g: Greeting)
    ensures ValidTime(hour, minute) ==>
      (g == BomDia <==> 4 * 60 <= MinuteOfDay(hour, minute) <= 12 * 60 + 30)
    ensures ValidTime(hour, minute) ==>
      (g == BoaNoite <==> MinuteOfDay(hour, minute) < 4 * 60 || 18 * 60 + 30 < MinuteOfDay(hour, minute))
  {
    if hour >= 4 && (hour < 12 || (hour == 12 && minute <= 30)) then BomDia
    else if hour >= 12 && (hour < 18 || (hour == 18 && minute <= 30)) then BoaTarde
    else BoaNoite
  }

  /** The corrected greeting differs from the written one only between 12:31 and 12:59. */
  lemma GreetingIntendedAgrees(hour: int, minute: int)
    requires ValidTime(hour, minute)
    ensures GreetingIntended(hour, minute) == GetGreeting(hour, minute) <==> !(hour == 12 && minute > 30)
  {
  }

  // ---------------------------------------------------------------------------
  // Herd statistics

  datatype Animal = Animal(id: string, name: string, phase: string)

  /** The four life phases the dashboard counts. */
  predicate KnownPhase(phase: string) {
    phase == "bezerra" || phase == "novilha" || phase == "vaca_lactante" || phase == "vaca_seca"
  }

  /** `animals.filter(a => a.phase === phase).length`. */
  function PhaseCount(animals: seq<Animal>, phase: string): nat {
    |Filter(animals, (a: Animal) => a.phase == phase)|
  }

  lemma PhaseCountStep(animals: seq<Animal>, phase: string)
    requires animals != []
    ensures PhaseCount(animals, phase) == (if animals[0].phase == phase then 1 else 0) + PhaseCount(animals[1..], phase)
  {
  }

  function PhaseSum(animals: seq<Animal>): nat {
    PhaseCount(animals, "bezerra") + PhaseCount(animals, "novilha") +
    PhaseCount(animals, "vaca_lactante") + PhaseCount(animals, "vaca_seca")
  }

  /** Every animal is counted in at most one phase, and in exactly one when its phase is known. */
  lemma {:induction false} PhaseSumBound(animals: seq<Animal>)
    ensures PhaseSum(animals) <= |animals|
    ensures (forall i :: 0 <= i < |animals| ==> KnownPhase(animals[i].phase)) ==> PhaseSum(animals) == |animals|
  {
    if animals != [] {
      PhaseCountStep(animals, "bezerra");
      PhaseCountStep(animals, "novilha");
      PhaseCountStep(animals, "vaca_lactante");
      PhaseCountStep(animals, "vaca_seca");
      PhaseSumBound(animals[1..]);
    }
  }

  /** The animals' phases, in herd order. */
  function Phases(animals: seq<Animal>): (phases: seq<string>)
    ensures |phases| == |animals|
    ensures forall i :: 0 <= i < |animals| ==> phases[i] == animals[i].phase
  {
    seq(|animals|, i requires 0 <= i < |animals| => animals[i].phase)
  }

  /** A phase count is the number of times that phase occurs among the animals. */
  lemma {:induction false} PhaseCountIsMultiplicity(animals: seq<Animal>, phase: string)
    ensures PhaseCount(animals, phase) == multiset(Phases(animals))[phase]
  {
    if animals != [] {
      PhaseCountStep(animals, phase);
      PhaseCountIsMultiplicity(animals[1..], phase);
      assert Phases(animals) == [animals[0].phase] + Phases(animals[1..]);
    }
  }

  datatype AnimalStats = AnimalStats(total: nat, bezerra: nat, novilha: nat, vacaLactante: nat, vacaSeca: nat)

  /** `animalStats`: the herd size and the number of animals in each phase. */
  function ComputeAnimalStats(animals: seq<Animal>): (s: AnimalStats)
    ensures s.total == |animals|
    ensures var census := multiset(Phases(animals));
      && s.bezerra == census["bezerra"] && s.novilha == census["novilha"]
      && s.vacaLactante == census["vaca_lactante"] && s.vacaSeca == census["vaca_seca"]
    ensures s.bezerra <= s.total && s.novilha <= s.total && s.vacaLactante <= s.total && s.vacaSeca <= s.total
    ensures s.bezerra + s.novilha + s.vacaLactante + s.vacaSeca <= s.total
    ensures (forall i :: 0 <= i < |animals| ==> KnownPhase(animals[i].phase)) ==>
      s.bezerra + s.novilha + s.vacaLactante + s.vacaSeca == s.total
  {
    PhaseSumBound(animals);
    PhaseCountIsMultiplicity(animals, "bezerra");
    PhaseCountIsMultiplicity(animals, "novilha");
    PhaseCountIsMultiplicity(animals, "vaca_lactante");
    PhaseCountIsMultiplicity(animals, "vaca_seca");
    AnimalStats(|animals|, PhaseCount(animals, "bezerra"), PhaseCount(animals, "novilha"),
                PhaseCount(animals, "vaca_lactante"), PhaseCount(animals, "vaca_seca"))
  }

  /**
   * A phase badge, `total > 0 ? Math.round(count / total * 100) : 0`:
   * 0 for an empty herd, otherwise the percentage rounded half up.
   */
  function PercentBadge(count: nat, total: nat): (r: nat)
    ensures total == 0 ==> r == 0
    ensures total > 0 ==> (2 * r - 1) * total <= 200 * count < (2 * r + 1) * total
    ensures count <= total ==> r <= 100
  {
    if total > 0 then
      var r := (200 * count + total) / (2 * total);
      RoundingBounds(count, total, r);
      r
    else 0
  }

  /** Multiplying by a positive factor keeps the order. */
  lemma MulCompare(d: int, a: int, b: int)
    requires d > 0
    ensures a < b ==> d * a < d * b
    ensures a >= b ==> d * a >= d * b
  {
    var diff := d * (b - a);
    assert diff == d * b - d * a;
  }

  /** Euclidean division by a positive divisor. */
  lemma DivBracket(n: int, d: int)
    requires d > 0
    ensures d * (n / d) <= n < d * (n / d) + d
  {
  }

  /** The quotient `(200 * count + total) / (2 * total)` brackets `200 * count`. */
  lemma RoundingBounds(count: nat, total: nat, r: int)
    requires total > 0 && r == (200 * count + total) / (2 * total)
    ensures r >= 0
    ensures (2 * r - 1) * total <= 200 * count < (2 * r + 1) * total
    ensures count <= total ==> r <= 100
  {
    var n, d := 200 * count + total, 2 * total;
    DivBracket(n, d);
    MulCompare(d, r, 0);
    assert (2 * r - 1) * total == d * r - total;
    assert (2 * r + 1) * total == d * r + total;
    MulCompare(d, r, 101);
    assert count <= total ==> n < d * 101;
  }

  /** Dividing bounds on `a` by a positive `t`. */
  lemma DivideBounds(a: real, lo: real, hi: real, t: real)
    requires t > 0.0 && lo * t <= a < hi * t
    ensures lo <= a / t < hi
  {
    assert a / t * t == a;
  }

  /** The badge is `Math.round` of the exact percentage: within half a point, ties going up. */
  lemma PercentBadgeRounds(count: nat, total: nat)
    requires total > 0
    ensures var r := PercentBadge(count, total) as real;
      r - 0.5 <= count as real / total as real * 100.0 < r + 0.5
  {
    var r := PercentBadge(count, total);
    var t, c, rr := total as real, count as real, r as real;
    assert ((2 * r - 1) * total) as real == (2.0 * rr - 1.0) * t;
    assert ((2 * r + 1) * total) as real == (2.0 * rr + 1.0) * t;
    assert (rr - 0.5) * t <= 100.0 * c < (rr + 0.5) * t;
    DivideBounds(100.0 * c, rr - 0.5, rr + 0.5, t);
    assert c / t * 100.0 == 100.0 * c / t;
  }

  // ---------------------------------------------------------------------------
  // Upcoming events

  /** `1000 * 60 * 60 * 24`. */
  const DayMs: int := 86400000

  datatype Event = Event(id: string, title: string, dateMs: int, completed: bool)

  /** `Math.ceil(ms / DayMs)`. */
  function CeilDays(ms: int): (d: int)
    ensures (d - 1) * DayMs < ms <= d * DayMs
  {
    -((-ms) / DayMs)
  }

  /** The test inside `events.filter`: between 0 and 7 days ahead, rounding up, and not completed. */
  predicate IsUpcoming(e: Event, todayMs: int) {
    var diffDays := CeilDays(e.dateMs - todayMs);
    diffDays >= 0 && diffDays <= 7 && !e.completed
  }

  /**
   * `upcomingEvents`: the pending events in the half-open window from one day
   * before today's midnight to seven days after it, in their original order.
   * Rounding up keeps an event earlier today (or late yesterday).
   */
  function UpcomingEvents(events: seq<Event>, todayMs: int): (r: seq<Event>)
    ensures IsSubsequence(r, events)
    ensures forall i :: 0 <= i < |r| ==>
      r[i] in events && !r[i].completed && todayMs - DayMs < r[i].dateMs <= todayMs + 7 * DayMs
    ensures forall i :: 0 <= i < |events| ==>
      (!events[i].completed && todayMs - DayMs < events[i].dateMs <= todayMs + 7 * DayMs ==> events[i] in r)
    ensures multiset(r) <= multiset(events)
    ensures forall i :: 0 <= i < |events| ==>
      multiset(r)[events[i]] ==
        if !events[i].completed && todayMs - DayMs < events[i].dateMs <= todayMs + 7 * DayMs
        then multiset(events)[events[i]] else 0
  {
    var keep := (e: Event) => IsUpcoming(e, todayMs);
    FilterMultiplicity(events, keep);
    Filter(events, keep)
  }

  // ---------------------------------------------------------------------------
  // Overdue vaccinations

  datatype Vaccination = Vaccination(id: string, animalId: string, nextDoseDate: Option<string>)

  /** The test inside `vaccinations.filter`: a non-empty next dose date that compares below today's. */
  predicate IsOverdue(v: Vaccination, today: string) {
    match v.nextDoseDate
    case None => false
    case Some(d) => d != "" && LexLess(d, today)
  }

  /** `overdueVaccinations`, in their original order. */
  function OverdueVaccinations(vaccinations: seq<Vaccination>, today: string): (r: seq<Vaccination>)
    ensures IsSubsequence(r, vaccinations)
    ensures forall i :: 0 <= i < |r| ==>
      r[i] in vaccinations && r[i].nextDoseDate.Some? && r[i].nextDoseDate.value != "" &&
      LexLess(r[i].nextDoseDate.value, today)
    ensures forall i :: 0 <= i < |vaccinations| ==>
      var next := vaccinations[i].nextDoseDate;
      (next.Some? && next.value != "" && LexLess(next.value, today) ==> vaccinations[i] in r)
    ensures multiset(r) <= multiset(vaccinations)
    ensures forall i :: 0 <= i < |vaccinations| ==>
      var next := vaccinations[i].nextDoseDate;
      multiset(r)[vaccinations[i]] ==
        if next.Some? && next.value != "" && LexLess(next.value, today)
        then multiset(vaccinations)[vaccinations[i]] else 0
  {
    var keep := (v: Vaccination) => IsOverdue(v, today);
    FilterMultiplicity(vaccinations, keep);
    Filter(vaccinations, keep)
  }

  /** With ISO dates on both sides, a vaccination is overdue exactly when its next dose falls before today. */
  lemma OverdueMeansBefore(v: Vaccination, dose: Date, today: Date)
    requires Printable(dose) && Printable(today)
    requires v.nextDoseDate == Some(IsoDate(dose))
    ensures IsOverdue(v, IsoDate(today)) <==> Before(dose, today)
  {
    IsoDateOrder(dose, today);
  }

  /** An empty next dose date is falsy and never overdue, although `""` compares below every date. */
  lemma EmptyDoseDateNotOverdue(v: Vaccination, today: string)
    requires v.nextDoseDate == Some("") && today != ""
    ensures LexLess("", today) && !IsOverdue(v, today)
  {
  }

  /**
   * `daysOverdue`, `Math.abs(Math.ceil((today - dose) / DayMs))`: the whole
   * days elapsed since the dose date, rounded up, or the whole days until it,
   * rounded down.
   */
  function DaysOverdue(todayMs: int, doseMs: int): (d: nat)
    ensures doseMs <= todayMs ==> (d - 1) * DayMs < todayMs - doseMs <= d * DayMs
    ensures todayMs < doseMs ==> d * DayMs <= doseMs - todayMs < (d + 1) * DayMs
  {
    var c := CeilDays(todayMs - doseMs);
    if c < 0 then -c else c
  }

  // ---------------------------------------------------------------------------
  // Display caps

  /** `commodities.slice(0, 5)`: the first five prices, or all of them. */
  function ShownCommodities(commodities: seq<CommoditiesService.CommodityPrice>): (r: seq<CommoditiesService.CommodityPrice>)
    ensures |r| == if |commodities| < 5 then |commodities| else 5
    ensures forall i :: 0 <= i < |r| ==> r[i] == commodities[i]
  {
    Take(commodities, 5)
  }

  /** `upcomingEvents.slice(0, 5)`. */
  function ShownEvents(upcoming: seq<Event>): (r: seq<Event>)
    ensures |r| == if |upcoming| < 5 then |upcoming| else 5
    ensures forall i :: 0 <= i < |r| ==> r[i] == upcoming[i]
  {
    Take(upcoming, 5)
  }

  /** `overdueVaccinations.slice(0, 3)`. */
  function ShownOverdue(overdue: seq<Vaccination>): (r: seq<Vaccination>)
    ensures |r| == if |overdue| < 3 then |overdue| else 3
    ensures forall i :: 0 <= i < |r| ==> r[i] == overdue[i]
  {
    Take(overdue, 3)
  }

  /**
   * The "... e mais N" line under the overdue rows: present exactly when some
   * rows are hidden, and every overdue vaccination is either shown or counted.
   */
  function MoreOverdue(overdue: seq<Vaccination>): (more: Option<nat>)
    ensures more.Some? <==> |ShownOverdue(overdue)| < |overdue|
    ensures |ShownOverdue(overdue)| + more.GetOr(0) == |overdue|
  {
    if |overdue| > 3 then Some(|overdue| - 3) else None
  }
}
