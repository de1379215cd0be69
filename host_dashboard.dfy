/** The host dashboard's summary over the host's events, fetched newest first,
    and over the budget lines of those events. Money is modelled as exact
    `real` amounts. */
module HostDashboard {
  import opened Base
  import opened Ledger

  predicate IsActive(e: EventRow)
  {
    e.status == "upcoming" || e.status == "ongoing"
  }

  /** `activeEvents`. */
  function ActiveEvents(events: seq<EventRow>): (r: seq<EventRow>)
    ensures IsSubsequence(r, events)
    ensures forall i :: 0 <= i < |r| ==> r[i] in events && (r[i].status == "upcoming" || r[i].status == "ongoing")
    ensures forall i :: 0 <= i < |events| && IsActive(events[i]) ==> events[i] in r
    ensures forall x: EventRow :: multiset(r)[x] == if IsActive(x) then multiset(events)[x] else 0
  {
    FilterIsSubsequence(events, IsActive);
    FilterMultiplicity(events, IsActive);
    Filter(events, IsActive)
  }

  /** `events.reduce((sum, e) => sum + (e.current_registrations || 0), 0)`. */
  function TotalRegistrations(events: seq<EventRow>): (n: int)
    ensures (forall i :: 0 <= i < |events| ==> events[i].currentRegistrations.None?) ==> n == 0
    ensures (forall i :: 0 <= i < |events| ==> Current(events[i]) >= 0) ==> n >= 0
    ensures |events| == 1 ==> n == Current(events[0])
  {
    if events == [] then 0 else Current(events[0]) + TotalRegistrations(events[1..])
  }

  lemma {:induction false} TotalRegistrationsAppend(a: seq<EventRow>, b: seq<EventRow>)
    ensures TotalRegistrations(a + b) == TotalRegistrations(a) + TotalRegistrations(b)
  {
    if a == [] {
      assert a + b == b;
    } else {
      assert (a + b)[1..] == a[1..] + b;
      TotalRegistrationsAppend(a[1..], b);
    }
  }

  /** Every counter within capacity keeps the total within the summed capacities. */
  lemma {:induction false} TotalWithinCapacity(events: seq<EventRow>)
    requires forall i :: 0 <= i < |events| ==> 0 <= Current(events[i]) <= events[i].maxCapacity
    ensures 0 <= TotalRegistrations(events) <= TotalCapacity(events)
  {
    if events != [] {
      TotalWithinCapacity(events[1..]);
    }
  }

  function TotalCapacity(events: seq<EventRow>): int
  {
    if events == [] then 0 else events[0].maxCapacity + TotalCapacity(events[1..])
  }

  /** A `budget_categories` row: the two amounts may be null. */
  datatype BudgetLine = BudgetLine(allocatedAmount: Option<real>, spentAmount: Option<real>)

  function OrZero(v: Option<real>): real
  {
    if v.Some? then v.value else 0.0
  }

  function SumAllocated(lines: seq<BudgetLine>): real
  {
    if lines == [] then 0.0 else OrZero(lines[0].allocatedAmount) + SumAllocated(lines[1..])
  }

  function SumSpent(lines: seq<BudgetLine>): real
  {
    if lines == [] then 0.0 else OrZero(lines[0].spentAmount) + SumSpent(lines[1..])
  }

  lemma {:induction false} SumAllocatedAppend(a: seq<BudgetLine>, b: seq<BudgetLine>)
    ensures SumAllocated(a + b) == SumAllocated(a) + SumAllocated(b)
  {
    if a == [] {
      assert a + b == b;
    } else {
      assert (a + b)[1..] == a[1..] + b;
      SumAllocatedAppend(a[1..], b);
    }
  }

  lemma {:induction false} SumSpentAppend(a: seq<BudgetLine>, b: seq<BudgetLine>)
    ensures SumSpent(a + b) == SumSpent(a) + SumSpent(b)
  {
    if a == [] {
      assert a + b == b;
    } else {
      assert (a + b)[1..] == a[1..] + b;
      SumSpentAppend(a[1..], b);
    }
  }

  /** Null amounts count as nothing: a line whose amount is null can be dropped
      from anywhere in the list without changing that sum. */
  lemma NullAmountsIgnored(a: seq<BudgetLine>, l: BudgetLine, b: seq<BudgetLine>)
    ensures l.allocatedAmount.None? ==> SumAllocated(a + [l] + b) == SumAllocated(a + b)
    ensures l.spentAmount.None? ==> SumSpent(a + [l] + b) == SumSpent(a + b)
  {
    SumAllocatedAppend(a + [l], b);
    SumAllocatedAppend(a, [l]);
    SumAllocatedAppend(a, b);
    SumSpentAppend(a + [l], b);
    SumSpentAppend(a, [l]);
    SumSpentAppend(a, b);
  }

  datatype HostStats = HostStats(
    totalEvents: nat,
    activeEvents: nat,
    totalRegistrations: int,
    totalBudget: real,
    totalSpent: real)

  /** `setStats(...)`. `categories` is what the budget query returns (`None`
      for null); it is consulted only when there are events. */
  function Stats(events: seq<EventRow>, categories: Option<seq<BudgetLine>>): (s: HostStats)
    ensures s.totalEvents == |events|
    ensures s.activeEvents == |ActiveEvents(events)| && s.activeEvents <= s.totalEvents
    ensures s.totalRegistrations == TotalRegistrations(events)
    ensures events == [] || categories.None? ==> s.totalBudget == 0.0 && s.totalSpent == 0.0
    ensures events != [] && categories.Some? ==>
              s.totalBudget == SumAllocated(categories.value) && s.totalSpent == SumSpent(categories.value)
  {
    var budget := if events != [] && categories.Some? then SumAllocated(categories.value) else 0.0;
    var spent := if events != [] && categories.Some? then SumSpent(categories.value) else 0.0;
    HostStats(|events|, |ActiveEvents(events)|, TotalRegistrations(events), budget, spent)
  }

  /** `recentEvents`: the five newest events, newest first. */
  function RecentEvents(events: seq<EventRow>): (r: seq<EventRow>)
    ensures |r| == if |events| < 5 then |events| else 5
    ensures forall i :: 0 <= i < |r| ==> r[i] == events[i]
  {
    Take(events, 5)
  }
}
