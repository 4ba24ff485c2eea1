/** The dashboard's stock cards (src/pages/dashboard/Dashboard.jsx): the
    per-group count looked up in the stats, its status label, and the total. */
module StockDashboard {

  /** One entry of `/inventory/stats`: a blood group and its unit count. */
  datatype Stat = Stat(id: string, totalUnits: int)

  /** The groups shown, in display order. */
  const BloodGroups: seq<string> := ["A+", "A-", "B+", "B-", "AB+", "AB-", "O+", "O-"]

  /** Exactly eight distinct groups are displayed. */
  lemma EightDistinctGroups()
    ensures |BloodGroups| == 8
    ensures forall i, j :: 0 <= i < j < |BloodGroups| ==> BloodGroups[i] != BloodGroups[j]
  {
  }

  /** `i` is the first index whose entry is for `group`. */
  predicate FirstFor(stats: seq<Stat>, group: string, i: int) {
    && 0 <= i < |stats|
    && stats[i].id == group
    && forall j :: 0 <= j < i ==> stats[j].id != group
  }

  /** `getGroupCount`: the units of the first entry for `group`, or 0. */
  function GetGroupCount(stats: seq<Stat>, group: string): (n: int)
    ensures (forall i :: 0 <= i < |stats| ==> stats[i].id != group) ==> n == 0
    ensures (exists i :: 0 <= i < |stats| && stats[i].id == group) ==>
      exists i :: FirstFor(stats, group, i) && n == stats[i].totalUnits
    decreases |stats|
  {
    if stats == [] then 0
    else if stats[0].id == group then stats[0].totalUnits
    else
      var n := GetGroupCount(stats[1..], group);
      assert (exists i :: 0 <= i < |stats| && stats[i].id == group) ==>
        exists i :: 0 <= i < |stats[1..]| && stats[1..][i].id == group
      by {
        if exists i :: 0 <= i < |stats| && stats[i].id == group {
          var i :| 0 <= i < |stats| && stats[i].id == group;
          assert i > 0 && stats[1..][i - 1].id == group;
        }
      }
      assert (exists i :: FirstFor(stats[1..], group, i) && n == stats[1..][i].totalUnits) ==>
        exists i :: FirstFor(stats, group, i) && n == stats[i].totalUnits
      by {
        if exists i :: FirstFor(stats[1..], group, i) && n == stats[1..][i].totalUnits {
          var i :| FirstFor(stats[1..], group, i) && n == stats[1..][i].totalUnits;
          assert FirstFor(stats, group, i + 1);
        }
      }
      n
  }

  datatype StockStatus = Critical | Low | Good

  /** How alarming a label is: Critical 2, Low 1, Good 0. */
  function Severity(s: StockStatus): int {
    match s
    case Critical => 2
    case Low => 1
    case Good => 0
  }

  /** `getStockStatus`: below 5 is critical, below 15 low, otherwise good. */
  function GetStockStatus(count: int): (s: StockStatus)
    ensures s == Critical <==> count < 5
    ensures s == Low <==> 5 <= count < 15
    ensures s == Good <==> count >= 15
  {
    if count < 5 then Critical
    else if count < 15 then Low
    else Good
  }

  /** A larger count never gets a more severe label. */
  lemma StockStatusMonotone(a: int, b: int)
    requires a <= b
    ensures Severity(GetStockStatus(b)) <= Severity(GetStockStatus(a))
  {
  }

  /** `stats.reduce((acc, curr) => acc + curr.totalUnits, 0)`, folded from the
      left. A single entry totals its own units; with the additivity of
      `TotalUnitsAppend` this fixes the total as the sum over all entries. */
  function TotalUnits(stats: seq<Stat>): (t: int)
    ensures stats == [] ==> t == 0
    ensures |stats| == 1 ==> t == stats[0].totalUnits
    ensures (forall i :: 0 <= i < |stats| ==> stats[i].totalUnits >= 0) ==> t >= 0
    decreases |stats|
  {
    if stats == [] then 0
    else TotalUnits(stats[..|stats| - 1]) + stats[|stats| - 1].totalUnits
  }

  /** The total of a concatenation is the sum of the totals. */
  lemma {:induction false} TotalUnitsAppend(a: seq<Stat>, b: seq<Stat>)
    ensures TotalUnits(a + b) == TotalUnits(a) + TotalUnits(b)
    decreases |b|
  {
    if b == [] {
      assert a + b == a;
    } else {
      assert (a + b)[..|a + b| - 1] == a + b[..|b| - 1];
      TotalUnitsAppend(a, b[..|b| - 1]);
    }
  }

  /** With no negative counts, one group's count never exceeds the total. */
  lemma {:induction false} GroupCountAtMostTotal(stats: seq<Stat>, group: string)
    requires forall i :: 0 <= i < |stats| ==> stats[i].totalUnits >= 0
    ensures GetGroupCount(stats, group) <= TotalUnits(stats)
    decreases |stats|
  {
    if stats != [] {
      assert stats == [stats[0]] + stats[1..];
      TotalUnitsAppend([stats[0]], stats[1..]);
      assert TotalUnits([stats[0]]) == stats[0].totalUnits by {
        assert [stats[0]][..0] == [];
      }
      if stats[0].id != group {
        GroupCountAtMostTotal(stats[1..], group);
      }
    }
  }
}
