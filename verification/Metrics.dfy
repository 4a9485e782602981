/** Request metrics: what the counters say while calls to Record are under way, and over days. */
module Metrics {
  const FREE_TIER_DAILY_QUOTA := 10_000

  /** A calendar day; only equality of days matters to Record. */
  type Day = int

  datatype Counters = Counters(total: int, byCommand: map<string, int>, today: Day, todayCount: int)

  function Fresh(day: Day): Counters {
    Counters(0, map[], day, 0)
  }

  function Name(command: string): string {
    if command == "" then "unknown" else command
  }

  function Get(m: map<string, int>, k: string): int {
    if k in m then m[k] else 0
  }

  // --- the two halves of Record ---

  function Counted(m: Counters): Counters {
    m.(total := m.total + 1)
  }

  function Filed(m: Counters, command: string, day: Day): Counters {
    var k := Name(command);
    m.(byCommand := m.byCommand[k := Get(m.byCommand, k) + 1],
       today := day,
       todayCount := if day != m.today then 1 else m.todayCount + 1)
  }

  /** The fields of the answer to a statistics request. */
  datatype Snapshot = Snapshot(
    totalRequests: int,
    requestsToday: int,
    uptimeSeconds: int,
    commands: map<string, int>,
    freeTierQuota: int,
    quotaSaved: int,
    quotaSavedToday: int,
    cloudQuotaRemaining: int,
    unlimitedLocal: bool)

  const SECOND: int := 1_000_000_000 // in nanoseconds

  class Tracker {
    const startedAt: int
    var totalRequests: int
    var byCommand: map<string, int>
    var today: Day
    var todayCount: int

    ghost function Now(): Counters
      reads this
    {
      Counters(totalRequests, byCommand, today, todayCount)
    }

    constructor (now: int, day: Day)
      ensures startedAt == now && Now() == Fresh(day)
    {
      startedAt := now;
      totalRequests, byCommand, today, todayCount := 0, map[], day, 0;
    }

    /** The atomic increment, outside the lock. */
    method CountRequest()
      modifies this
      ensures Now() == Counted(old(Now()))
    {
      totalRequests := totalRequests + 1;
    }

    /** What Record does while it holds the lock. */
    method FileRequest(command: string, day: Day)
      modifies this
      ensures Now() == Filed(old(Now()), command, day)
      ensures var name := if command == "" then "unknown" else command;
        byCommand == old(byCommand)[name := if name in old(byCommand) then old(byCommand)[name] + 1 else 1]
      ensures today == day && todayCount == if day == old(today) then old(todayCount) + 1 else 1
    {
      var name := command;
      if name == "" {
        name := "unknown";
      }
      byCommand := byCommand[name := (if name in byCommand then byCommand[name] else 0) + 1];
      if day != today {
        today := day;
        todayCount := 0;
      }
      todayCount := todayCount + 1;
    }

    method Record(command: string, day: Day)
      modifies this
      ensures Now() == Filed(Counted(old(Now())), command, day)
    {
      CountRequest();
      FileRequest(command, day);
    }

    /** The counters are copied entry by entry; nothing is changed. */
    method TakeSnapshot(now: int) returns (s: Snapshot)
      requires startedAt <= now
      ensures s.commands == byCommand && s.totalRequests == s.quotaSaved == totalRequests
      ensures s.requestsToday == s.quotaSavedToday == todayCount
      ensures s.freeTierQuota == FREE_TIER_DAILY_QUOTA && s.unlimitedLocal
      ensures s.cloudQuotaRemaining >= 0
      ensures s.cloudQuotaRemaining == FREE_TIER_DAILY_QUOTA - todayCount
        || (s.cloudQuotaRemaining == 0 && todayCount >= FREE_TIER_DAILY_QUOTA)
      ensures s.uptimeSeconds * SECOND <= now - startedAt < (s.uptimeSeconds + 1) * SECOND
    {
      var commands: map<string, int> := map[];
      var rest := byCommand.Keys;
      while rest != {}
        invariant rest <= byCommand.Keys
        invariant commands == map k | k in byCommand && k !in rest :: byCommand[k]
        decreases |rest|
      {
        var k :| k in rest;
        commands := commands[k := byCommand[k]];
        rest := rest - {k};
      }
      assert commands == byCommand;
      var remaining := FREE_TIER_DAILY_QUOTA - todayCount;
      if remaining < 0 {
        remaining := 0;
      }
      s := Snapshot(totalRequests, todayCount, (now - startedAt) / SECOND, commands, FREE_TIER_DAILY_QUOTA,
                    totalRequests, todayCount, remaining, true);
    }
  }

  // --- calls under way ---

  /** A caller's Record: the atomic increment, reading the day, and the update under the lock. */
  datatype Event = Begin(caller: int) | ReadDay(caller: int, day: Day) | Finish(caller: int, command: string, day: Day)

  /** The counters, the callers that are between their two updates, and the days they have read. */
  datatype System = System(counters: Counters, between: set<int>, read: map<int, Day>)

  function Idle(start: Day): System {
    System(Fresh(start), {}, map[])
  }

  predicate Possible(s: System, e: Event) {
    match e
    case Begin(c) => c !in s.between
    case ReadDay(c, _) => c in s.between && c !in s.read
    case Finish(c, _, day) => c in s.between && c in s.read && s.read[c] == day
  }

  function Happen(s: System, e: Event): System {
    match e
    case Begin(c) => s.(counters := Counted(s.counters), between := s.between + {c})
    case ReadDay(c, day) => s.(read := s.read[c := day])
    case Finish(c, command, day) => System(Filed(s.counters, command, day), s.between - {c}, s.read - {c})
  }

  function End(s: System, run: seq<Event>): System
    decreases |run|
  {
    if run == [] then s else Happen(End(s, run[..|run| - 1]), run[|run| - 1])
  }

  predicate Legal(s: System, run: seq<Event>)
    decreases |run|
  {
    run != [] ==>
      Legal(s, run[..|run| - 1]) && Possible(End(s, run[..|run| - 1]), run[|run| - 1])
  }

  ghost function Sum(m: map<string, int>): int
    decreases |m|
  {
    if m == map[] then 0
    else
      var k :| k in m;
      m[k] + Sum(m - {k})
  }

  lemma {:induction false} SumWithout(m: map<string, int>, k: string)
    requires k in m
    ensures Sum(m) == m[k] + Sum(m - {k})
    decreases |m|
  {
    var j :| j in m && Sum(m) == m[j] + Sum(m - {j});
    if j != k {
      SumWithout(m - {j}, k);
      SumWithout(m - {k}, j);
      assert m - {j} - {k} == m - {k} - {j};
    }
  }

  lemma SumIncremented(m: map<string, int>, k: string)
    ensures Sum(m[k := Get(m, k) + 1]) == Sum(m) + 1
  {
    var n := m[k := Get(m, k) + 1];
    SumWithout(n, k);
    if k in m {
      SumWithout(m, k);
      assert n - {k} == m - {k};
    } else {
      assert n - {k} == m;
    }
  }

  /** Requests filed in a run with this very command. */
  function FiledAs(run: seq<Event>, command: string): nat
    decreases |run|
  {
    if run == [] then 0
    else
      var e := run[|run| - 1];
      FiledAs(run[..|run| - 1], command) + if e.Finish? && e.command == command then 1 else 0
  }

  /**
   * In every interleaving, the total exceeds the sum over the commands by the number of callers
   * that are between their two updates; at rest they agree.
   */
  lemma {:induction false} TotalIsConserved(day: Day, run: seq<Event>)
    requires Legal(Idle(day), run)
    ensures var s := End(Idle(day), run);
      s.counters.total - Sum(s.counters.byCommand) == |s.between|
    decreases |run|
  {
    if run != [] {
      var n := |run| - 1;
      var s := End(Idle(day), run[..n]);
      TotalIsConserved(day, run[..n]);
      if run[n].Finish? {
        SumIncremented(s.counters.byCommand, Name(run[n].command));
      }
    }
  }

  /**
   * Whatever the interleaving, each command's counter is the number of times it was filed, and
   * "unknown" also has those without a name.
   */
  lemma {:induction false} CommandsAreExact(day: Day, run: seq<Event>, k: string)
    ensures Get(End(Idle(day), run).counters.byCommand, k)
      == if k == "" then 0 else FiledAs(run, k) + if k == "unknown" then FiledAs(run, "") else 0
    decreases |run|
  {
    if run != [] {
      CommandsAreExact(day, run[..|run| - 1], k);
    }
  }

  // --- days ---

  datatype Filing = Filing(command: string, day: Day)

  /** The records of a run, in the order in which they were filed. */
  function Filings(run: seq<Event>): seq<Filing>
    decreases |run|
  {
    if run == [] then []
    else
      var front, e := Filings(run[..|run| - 1]), run[|run| - 1];
      if e.Finish? then front + [Filing(e.command, e.day)] else front
  }

  /** Calls to Record one after the other. */
  function AfterRecords(m: Counters, records: seq<Filing>): Counters
    decreases |records|
  {
    if records == [] then m
    else
      var last := records[|records| - 1];
      Filed(Counted(AfterRecords(m, records[..|records| - 1])), last.command, last.day)
  }

  function OnDay(records: seq<Filing>, day: Day): nat
    decreases |records|
  {
    if records == [] then 0
    else
      OnDay(records[..|records| - 1], day) + if records[|records| - 1].day == day then 1 else 0
  }

  /** How many of the last records share the day of the very last one. */
  function Trailing(records: seq<Filing>, day: Day): nat
    decreases |records|
  {
    if records == [] || records[|records| - 1].day != day then 0
    else Trailing(records[..|records| - 1], day) + 1
  }

  lemma {:induction false} TodayIsTheTrail(start: Day, records: seq<Filing>)
    requires records != []
    ensures var m := AfterRecords(Fresh(start), records);
      m.today == records[|records| - 1].day && m.todayCount == Trailing(records, m.today)
    decreases |records|
  {
    var n := |records| - 1;
    var front, day := records[..n], records[n].day;
    if front != [] {
      TodayIsTheTrail(start, front);
    } else {
      assert AfterRecords(Fresh(start), front) == Fresh(start);
      assert Trailing(front, day) == 0;
    }
  }

  /** Records on `day` come one after the other, up to the end. */
  predicate Unbroken(records: seq<Filing>, day: Day) {
    forall i, j :: 0 <= i < j < |records| && records[i].day == day ==> records[j].day == day
  }

  lemma {:induction false} TrailCountsTheDay(records: seq<Filing>, day: Day)
    ensures Trailing(records, day) <= OnDay(records, day)
    ensures Trailing(records, day) == OnDay(records, day) <==> Unbroken(records, day)
    decreases |records|
  {
    if records != [] {
      var n := |records| - 1;
      var front := records[..n];
      TrailCountsTheDay(front, day);
      if records[n].day == day {
        assert Unbroken(records, day) <==> Unbroken(front, day) by {
          if Unbroken(front, day) {
            assert forall i :: 0 <= i < n ==> front[i] == records[i];
          }
        }
      } else {
        NoneOnDay(front, day);
        if OnDay(front, day) == 0 {
          assert forall i :: 0 <= i < n ==> records[i] == front[i];
        } else {
          var i :| 0 <= i < |front| && front[i].day == day;
          assert records[i].day == day && records[n].day != day;
        }
      }
    }
  }

  lemma {:induction false} NoneOnDay(records: seq<Filing>, day: Day)
    ensures OnDay(records, day) == 0 <==> forall i :: 0 <= i < |records| ==> records[i].day != day
    decreases |records|
  {
    if records != [] {
      var n := |records| - 1;
      NoneOnDay(records[..n], day);
      assert forall i :: 0 <= i < n ==> records[..n][i] == records[i];
    }
  }

  predicate SameDayCount(m: Counters, n: Counters) {
    m.today == n.today && m.todayCount == n.todayCount && m.byCommand == n.byCommand
  }

  lemma FiledAlike(m: Counters, n: Counters, command: string, day: Day)
    requires SameDayCount(m, n)
    ensures SameDayCount(Filed(m, command, day), Filed(Counted(n), command, day))
  {
  }

  lemma AfterOneMore(m: Counters, records: seq<Filing>, last: Filing)
    ensures AfterRecords(m, records + [last]) == Filed(Counted(AfterRecords(m, records)), last.command, last.day)
  {
    assert (records + [last])[..|records|] == records;
  }

  /**
   * However calls are interleaved, the counters kept under the lock are those of calls made one
   * after the other, in the order of filing; the total also counts those between their two updates.
   */
  lemma {:induction false} InterleavedAsSequential(start: Day, run: seq<Event>)
    requires Legal(Idle(start), run)
    ensures var s, m := End(Idle(start), run), AfterRecords(Fresh(start), Filings(run));
      SameDayCount(s.counters, m) && s.counters.total == m.total + |s.between|
    decreases |run|
  {
    if run != [] {
      var n := |run| - 1;
      InterleavedAsSequential(start, run[..n]);
      if run[n].Finish? {
        var command, day := run[n].command, run[n].day;
        AfterOneMore(Fresh(start), Filings(run[..n]), Filing(command, day));
        FiledAlike(End(Idle(start), run[..n]).counters, AfterRecords(Fresh(start), Filings(run[..n])), command, day);
      }
    }
  }

  /**
   * The daily count is the number of records on the last recorded day exactly when no record on
   * another day was filed in between, in every interleaving.
   */
  lemma TodayCountIff(start: Day, run: seq<Event>)
    requires Legal(Idle(start), run) && Filings(run) != []
    ensures var m, records := End(Idle(start), run).counters, Filings(run);
      m.todayCount == OnDay(records, m.today) <==> Unbroken(records, m.today)
  {
    var records := Filings(run);
    InterleavedAsSequential(start, run);
    TodayIsTheTrail(start, records);
    TrailCountsTheDay(records, records[|records| - 1].day);
  }

  /** In particular when the days filed never go back; then the snapshot's quota is what is left of that day's. */
  lemma TodayCountExact(start: Day, run: seq<Event>)
    requires Legal(Idle(start), run) && Filings(run) != []
    requires forall i, j :: 0 <= i < j < |Filings(run)| ==> Filings(run)[i].day <= Filings(run)[j].day
    ensures var s, records := End(Idle(start), run), Filings(run);
      && s.counters.total == |records| + |s.between|
      && s.counters.todayCount == OnDay(records, records[|records| - 1].day)
  {
    var records := Filings(run);
    var n := |records| - 1;
    InterleavedAsSequential(start, run);
    TodayIsTheTrail(start, records);
    AllCounted(start, records);
    forall i, j | 0 <= i < j < |records| && records[i].day == records[n].day ensures records[j].day == records[n].day {
      assert j < n ==> records[j].day <= records[n].day;
    }
    TodayCountIff(start, run);
  }

  lemma {:induction false} AllCounted(start: Day, records: seq<Filing>)
    ensures AfterRecords(Fresh(start), records).total == |records|
    decreases |records|
  {
    if records != [] {
      AllCounted(start, records[..|records| - 1]);
    }
  }

  // --- around midnight ---

  /** The days read, in the order of reading, never go back. */
  predicate ClockForward(run: seq<Event>) {
    forall i, j :: 0 <= i < j < |run| && run[i].ReadDay? && run[j].ReadDay? ==> run[i].day <= run[j].day
  }

  lemma OneMore(s: System, run: seq<Event>, e: Event, t: System)
    requires Legal(s, run) && End(s, run) == t && Possible(t, e)
    ensures Legal(s, run + [e]) && End(s, run + [e]) == Happen(t, e)
  {
    assert (run + [e])[..|run|] == run;
  }

  lemma OneMoreFiling(run: seq<Event>, e: Event)
    ensures Filings(run + [e]) == if e.Finish? then Filings(run) + [Filing(e.command, e.day)] else Filings(run)
  {
    assert (run + [e])[..|run|] == run;
  }

  /** Three callers read the day before and after midnight and are filed in another order. */
  function Readers(): seq<Event> {
    [Begin(1)] + [Begin(2)] + [Begin(3)] + [ReadDay(1, 0)] + [ReadDay(2, 1)] + [ReadDay(3, 1)]
  }

  function Straggler(): seq<Event> {
    Readers() + [Finish(2, "GET", 1)] + [Finish(1, "GET", 0)] + [Finish(3, "GET", 1)]
  }

  lemma ReadersReady()
    ensures Legal(Idle(0), Readers()) && Filings(Readers()) == []
    ensures var t := End(Idle(0), Readers());
      t.between == {1, 2, 3} && t.read == map[1 := 0, 2 := 1, 3 := 1] && t.counters.today == 0
  {
    var s0 := Idle(0);
    var s1 := Happen(s0, Begin(1));
    var s2 := Happen(s1, Begin(2));
    var s3 := Happen(s2, Begin(3));
    var s4 := Happen(s3, ReadDay(1, 0));
    var s5 := Happen(s4, ReadDay(2, 1));
    OneMore(s0, [], Begin(1), s0);
    assert [] + [Begin(1)] == [Begin(1)];
    OneMore(s0, [Begin(1)], Begin(2), s1);
    OneMore(s0, [Begin(1)] + [Begin(2)], Begin(3), s2);
    OneMore(s0, [Begin(1)] + [Begin(2)] + [Begin(3)], ReadDay(1, 0), s3);
    OneMore(s0, [Begin(1)] + [Begin(2)] + [Begin(3)] + [ReadDay(1, 0)], ReadDay(2, 1), s4);
    OneMore(s0, [Begin(1)] + [Begin(2)] + [Begin(3)] + [ReadDay(1, 0)] + [ReadDay(2, 1)], ReadDay(3, 1), s5);
    NoFilings(Readers());
  }

  lemma {:induction false} NoFilings(run: seq<Event>)
    requires forall i :: 0 <= i < |run| ==> !run[i].Finish?
    ensures Filings(run) == []
    decreases |run|
  {
    if run != [] {
      NoFilings(run[..|run| - 1]);
    }
  }

  /**
   * A day that is read before the lock is taken can be filed late, also if the clock never goes back:
   * the count of the new day then starts again, and does not say how many requests there were.
   */
  lemma StragglerResetsTheDay()
    ensures Legal(Idle(0), Straggler()) && ClockForward(Straggler())
    ensures var m := End(Idle(0), Straggler()).counters;
      m.today == 1 && m.todayCount == 1 && OnDay(Filings(Straggler()), 1) == 2
  {
    ReadersReady();
    var r := Readers();
    var a, b, c := Finish(2, "GET", 1), Finish(1, "GET", 0), Finish(3, "GET", 1);
    var t := End(Idle(0), r);
    OneMore(Idle(0), r, a, t);
    OneMore(Idle(0), r + [a], b, Happen(t, a));
    OneMore(Idle(0), r + [a] + [b], c, Happen(Happen(t, a), b));
    OneMoreFiling(r, a);
    OneMoreFiling(r + [a], b);
    OneMoreFiling(r + [a] + [b], c);
    var f, g, h := Filing("GET", 1), Filing("GET", 0), Filing("GET", 1);
    assert Filings(Straggler()) == [f, g, h];
    assert [f, g, h][..2] == [f, g] && [f, g][..1] == [f] && [f][..0] == [];
    assert OnDay([f], 1) == 1 && OnDay([f, g], 1) == 1;
  }
}
