/** Which days the sweep files. A tick seals the last closed day and no other, so a day is filed by the
    ticks of the 24 hours after its close, or never. */
module SweepDays {
  import opened Wrappers
  import opened RemittanceSweep
  import BusinessDay

  /** What a tick finds: the time, the tables and the agents' rates. */
  datatype Tick = Tick(now: int, tables: Tables, rates: map<string, real>)

  function DayOf(now: int, close: BusinessDay.CloseMinutes): Window {
    var day := BusinessDay.LastClosedBusinessDay(now, close);
    Window(day.periodDate, day.window.startUtc, day.window.endUtc)
  }

  function DayWindow(p: int, close: BusinessDay.CloseMinutes): Window {
    var w := BusinessDay.BusinessDayBounds(p, close);
    Window(p, w.startUtc, w.endUtc)
  }

  /** One tick, as its method promises. */
  ghost predicate Ticked(t: Tick, close: BusinessDay.CloseMinutes, before: seq<Record>, after: seq<Record>) {
    var w := DayOf(t.now, close);
    && Appended(t.tables, w, t.rates, before, after)
    && forall agent :: agent in t.rates && Active(t.tables, w, agent) ==> Filed(after, agent, w.period)
  }

  /** The records after each tick of a run. */
  ghost predicate IsRun(ticks: seq<Tick>, close: BusinessDay.CloseMinutes, states: seq<seq<Record>>) {
    && |states| == |ticks| + 1 && states[0] == []
    && forall i :: 0 <= i < |ticks| ==> Ticked(ticks[i], close, states[i], states[i + 1])
  }

  /** A tick in the 24 hours after the close of day `p` that finds the agent active on it. */
  predicate Catches(t: Tick, close: BusinessDay.CloseMinutes, p: int, agent: string) {
    var w := DayWindow(p, close);
    w.endUtc <= t.now < w.endUtc + BusinessDay.DAY_MS && agent in t.rates && Active(t.tables, w, agent)
  }

  lemma SealsIff(t: Tick, close: BusinessDay.CloseMinutes, p: int)
    requires p % BusinessDay.DAY_MS == 0
    ensures var w := DayWindow(p, close);
            && (DayOf(t.now, close).period == p <==> w.endUtc <= t.now < w.endUtc + BusinessDay.DAY_MS)
            && (DayOf(t.now, close).period == p ==> DayOf(t.now, close) == w)
  {
    BusinessDay.SealedForOneDay(t.now, close, p);
    BusinessDay.ImplementationsAgree(t.now - BusinessDay.DAY_MS, close);
  }

  /** What one tick does to the record of an agent and a day. */
  lemma TickFilesIff(t: Tick, close: BusinessDay.CloseMinutes, before: seq<Record>, after: seq<Record>, p: int, agent: string)
    requires p % BusinessDay.DAY_MS == 0 && Ticked(t, close, before, after)
    ensures Filed(after, agent, p) <==> Filed(before, agent, p) || Catches(t, close, p, agent)
  {
    SealsIff(t, close, p);
    if Filed(before, agent, p) {
      var i :| 0 <= i < |before| && before[i].agent == agent && before[i].period == p;
      assert after[i] == before[i];
    }
    if Filed(after, agent, p) && !Filed(before, agent, p) {
      var i :| 0 <= i < |after| && after[i].agent == agent && after[i].period == p;
      assert i >= |before|;
    }
  }

  /** Over any run of ticks, with whatever tables each of them finds: an agent has a record for a day
      exactly when some tick of the 24 hours after its close found the agent active on it. */
  lemma {:induction false} FiledIff(ticks: seq<Tick>, close: BusinessDay.CloseMinutes, states: seq<seq<Record>>, n: nat, p: int, agent: string)
    requires IsRun(ticks, close, states) && n <= |ticks| && p % BusinessDay.DAY_MS == 0
    ensures Filed(states[n], agent, p) <==> exists i :: 0 <= i < n && Catches(ticks[i], close, p, agent)
  {
    if n > 0 {
      FiledIff(ticks, close, states, n - 1, p, agent);
      TickFilesIff(ticks[n - 1], close, states[n - 1], states[n], p, agent);
    }
  }

  /** A worker that is down for the 24 hours after a close loses the day for good, for every agent and
      however often it ticks before and after. */
  lemma DowntimeLosesTheDay(ticks: seq<Tick>, close: BusinessDay.CloseMinutes, states: seq<seq<Record>>, n: nat, p: int, agent: string)
    requires IsRun(ticks, close, states) && n <= |ticks| && p % BusinessDay.DAY_MS == 0
    requires var end := DayWindow(p, close).endUtc;
             forall i :: 0 <= i < n ==> ticks[i].now < end || end + BusinessDay.DAY_MS <= ticks[i].now
    ensures !Filed(states[n], agent, p)
  {
    FiledIff(ticks, close, states, n, p, agent);
  }

  const SOLD := Tables([Payment("A1", 100, true, true, -3_600_000, true)], [Ticket(0, Some("A1"), false, 100)], [])
  const RATES: map<string, real> := map["A1" := 0.1]

  const BEFORE := Tick(64_799_999, SOLD, RATES)
  const AFTER := Tick(151_200_000, SOLD, RATES)

  /** One sale, confirmed at midnight in Lagos on the day that closes at 19:00; the worker ticks just
      before that close and then 24 hours after it. There is such a run, and the day stays without a
      record in any. */
  lemma MissedDay(states: seq<seq<Record>>)
    requires IsRun([BEFORE, AFTER], 1140, states)
    ensures IsRun([BEFORE, AFTER], 1140, [[], [], []])
    ensures DayWindow(0, 1140) == Window(0, -21_600_000, 64_800_000)
    ensures Active(SOLD, DayWindow(0, 1140), "A1") && "A1" in RATES && !Filed(states[2], "A1", 0)
  {
    assert SOLD.tickets[0].agent == Some("A1") && Counted(SOLD, DayWindow(0, 1140), SOLD.tickets[0]);
    DowntimeLosesTheDay([BEFORE, AFTER], 1140, states, 2, 0, "A1");
    NothingToFile(BEFORE);
    NothingToFile(AFTER);
  }

  lemma NothingToFile(t: Tick)
    requires t == BEFORE || t == AFTER
    ensures Ticked(t, 1140, [], [])
  {
    var w := DayOf(t.now, 1140);
    assert w == Window(-86_400_000, -108_000_000, -21_600_000) || w == Window(86_400_000, 64_800_000, 151_200_000);
    assert !Counted(SOLD, w, SOLD.tickets[0]);
    assert forall agent :: !Active(SOLD, w, agent);
  }
}
