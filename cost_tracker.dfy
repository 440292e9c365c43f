/** The cost ledger: one file per month holding a `MonthlyCostLog`, read,
    extended and written back once per billed call. The directory is the
    map `files` from month key to file content. */
module CostTracker {
  import opened Wrappers
  import opened Types
  import opened MonthKeys
  import opened Sorting
  import opened MonthFiles

  /** What `trackCost` reports back to its caller. */
  datatype CostStats = CostStats(totalInvocations: int, totalCost: int, costThisCall: int)

  /** The record a month starts from when its file is missing or unreadable. */
  function EmptyMonth(month: string): MonthlyCostLog
  {
    MonthlyCostLog(month, 0, 0, [])
  }

  function SumCosts(entries: seq<CostLog>): int
  {
    if entries == [] then 0 else entries[0].cost + SumCosts(entries[1..])
  }

  lemma {:induction false} SumCostsAppend(entries: seq<CostLog>, e: CostLog)
    ensures SumCosts(entries + [e]) == SumCosts(entries) + e.cost
  {
    if entries != [] {
      assert (entries + [e])[1..] == entries[1..] + [e];
      SumCostsAppend(entries[1..], e);
    }
  }

  /** The cost of two runs of calls is the sum of their costs. */
  lemma {:induction false} SumCostsConcat(a: seq<CostLog>, b: seq<CostLog>)
    ensures SumCosts(a + b) == SumCosts(a) + SumCosts(b)
  {
    if a == [] {
      assert a + b == b;
    } else {
      assert (a + b)[1..] == a[1..] + b;
      SumCostsConcat(a[1..], b);
    }
  }

  /** The ledger's counters agree with its entries. */
  predicate Consistent(r: MonthlyCostLog)
  {
    r.totalInvocations == |r.invocations| && r.totalCost == SumCosts(r.invocations)
  }

  /** The record after one more billed call: the entry pushed at the end,
      one more invocation, and its cost added to the total. */
  function Charged(r: MonthlyCostLog, entry: CostLog): MonthlyCostLog
  {
    r.(invocations := r.invocations + [entry],
       totalInvocations := r.totalInvocations + 1,
       totalCost := r.totalCost + entry.cost)
  }

  /** Charging keeps the counters in step with the entries. */
  lemma ChargedConsistent(r: MonthlyCostLog, entry: CostLog)
    requires Consistent(r)
    ensures Consistent(Charged(r, entry))
  {
    SumCostsAppend(r.invocations, entry);
  }

  /** The record after billing each of `entries` in turn. */
  function ChargedAll(r: MonthlyCostLog, entries: seq<CostLog>): MonthlyCostLog
  {
    if entries == [] then r else Charged(ChargedAll(r, entries[..|entries| - 1]), entries[|entries| - 1])
  }

  /** A month that starts empty holds exactly the entries billed to it,
      with counters in step. */
  lemma {:induction false} ChargedAllFromEmpty(month: string, entries: seq<CostLog>)
    ensures var r := ChargedAll(EmptyMonth(month), entries);
      r.month == month && r.invocations == entries && Consistent(r)
  {
    if entries != [] {
      var init := entries[..|entries| - 1];
      ChargedAllFromEmpty(month, init);
      ChargedConsistent(ChargedAll(EmptyMonth(month), init), entries[|entries| - 1]);
      assert init + [entries[|entries| - 1]] == entries;
    }
  }

  /** Entries at one constant price cost count times price. */
  lemma {:induction false} SumCostsConstant(entries: seq<CostLog>, price: int)
    requires forall i :: 0 <= i < |entries| ==> entries[i].cost == price
    ensures SumCosts(entries) == |entries| * price
  {
    if entries != [] {
      SumCostsConstant(entries[1..], price);
      assert |entries| * price == price + (|entries| - 1) * price;
    }
  }

  /** A month that starts empty and is billed at one constant price holds
      exactly the billed entries, and its total is count times price. */
  lemma ConstantPriceTotals(month: string, entries: seq<CostLog>, price: int)
    requires forall i :: 0 <= i < |entries| ==> entries[i].cost == price
    ensures var r := ChargedAll(EmptyMonth(month), entries);
      r.month == month && r.invocations == entries && Consistent(r)
      && r.totalInvocations == |entries| && r.totalCost == |entries| * price
  {
    ChargedAllFromEmpty(month, entries);
    SumCostsConstant(entries, price);
  }

  class CostStore {
    /** Whether the costs directory exists. */
    var dirExists: bool
    /** The month files in the directory, by month key. */
    var files: map<string, Stored<MonthlyCostLog>>

    /** No files without a directory, and every file that parses holds the
        record of the month it is named after (the name is taken from the
        record's `month` when it is saved). */
    ghost predicate Valid()
      reads this
    {
      && (!dirExists ==> files == map[])
      && forall m :: m in files && files[m].Parsed? ==> files[m].value.month == m
    }

    constructor ()
      ensures Valid() && !dirExists && files == map[]
    {
      dirExists := false;
      files := map[];
    }

    /** `loadMonthlyCost(month)`: the stored record, or a fresh empty one
        when the file is missing or does not parse. */
    function LoadMonthlyCost(month: string): (r: MonthlyCostLog)
      reads this
      ensures month in files && files[month].Parsed? ==> r == files[month].value
      ensures !(month in files && files[month].Parsed?) ==> r == EmptyMonth(month)
      ensures Valid() ==> r.month == month
    {
      if month in files && files[month].Parsed? then files[month].value else EmptyMonth(month)
    }

    /** `trackCost()` at the instant `at`, with the configured price
        `costPerCall`. The price is used as given, even when it is zero or
        negative. Only the current month's file is written; a failed write
        changes nothing and surfaces as an error. */
    method TrackCost(at: Instant, costPerCall: int, save: SaveOutcome) returns (r: Result<CostStats, string>)
      requires Valid()
      modifies this
      ensures Valid()
      ensures var month := CurrentMonth(at);
        var updated := Charged(old(LoadMonthlyCost(month)), CostLog(at.iso, costPerCall));
        match save
        case Saved =>
          && dirExists
          && files == old(files)[month := Parsed(updated)]
          && r == Ok(CostStats(updated.totalInvocations, updated.totalCost, costPerCall))
        case SaveFailed(message) =>
          && dirExists == old(dirExists) && files == old(files)
          && r == Err(message)
    {
      var month := CurrentMonth(at);
      var monthlyCost := LoadMonthlyCost(month);
      var costLog := CostLog(at.iso, costPerCall);
      monthlyCost := monthlyCost.(invocations := monthlyCost.invocations + [costLog]);
      monthlyCost := monthlyCost.(totalInvocations := monthlyCost.totalInvocations + 1);
      monthlyCost := monthlyCost.(totalCost := monthlyCost.totalCost + costPerCall);
      match save {
        case Saved =>
          dirExists := true;
          files := files[monthlyCost.month := Parsed(monthlyCost)];
          r := Ok(CostStats(monthlyCost.totalInvocations, monthlyCost.totalCost, costPerCall));
        case SaveFailed(message) =>
          r := Err(message);
      }
    }

    /** `getMonthlyStats()`: the current month's record as loaded. */
    method GetMonthlyStats(at: Instant) returns (r: MonthlyCostLog)
      requires Valid()
      ensures r.month == CurrentMonth(at)
      ensures r == LoadMonthlyCost(CurrentMonth(at))
    {
      r := LoadMonthlyCost(CurrentMonth(at));
    }

    /** `getAllCosts()`: reads the month files in directory order, which is
        left open, then sorts them by month, newest first. A file that does
        not parse ends the read, and what was read before it is returned
        unsorted. */
    method GetAllCosts() returns (costs: seq<MonthlyCostLog>)
      requires Valid()
      ensures forall x :: x in costs ==> x.month in files && files[x.month] == Parsed(x)
      ensures |costs| <= |files|
      ensures !dirExists ==> costs == []
      ensures AllParsed(files) ==>
        && |costs| == |files|
        && (forall m :: m in files ==> files[m].value in costs)
        && SortedDescending(costs, CostMonth)
    {
      costs := [];
      if !dirExists {
        return;
      }
      var complete;
      costs, complete := ReadMonthFiles(files, CostMonth);
      if !complete {
        return;
      }
      var sorted := new MonthlyCostLog[|costs|](i requires 0 <= i < |costs| => costs[i]);
      assert sorted[..] == costs;
      ghost var order := SortDescending(sorted, CostMonth);
      PermutationMembers(sorted[..], costs);
      costs := sorted[..];
    }
  }
}
