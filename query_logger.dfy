/** The query log: one file per month holding a `MonthlyQueryLog`, read,
    extended and written back once per forwarded request of either tier.
    The directory is the map `files` from month key to file content. */
module QueryLogger {
  import opened Types
  import opened MonthKeys
  import opened Sorting
  import opened MonthFiles

  /** The record a month starts from when its file is missing or unreadable. */
  function EmptyLog(month: string): MonthlyQueryLog
  {
    MonthlyQueryLog(month, [])
  }

  /** The record with one more entry pushed at the end. */
  function Logged(r: MonthlyQueryLog, entry: QueryLog): MonthlyQueryLog
  {
    r.(queries := r.queries + [entry])
  }

  class QueryLogStore {
    /** Whether the logs directory exists. */
    var dirExists: bool
    /** The month files in the directory, by month key. */
    var files: map<string, Stored<MonthlyQueryLog>>

    /** No files without a directory, and every file that parses holds the
        record of the month it is named after. */
    ghost predicate Valid()
      reads this
    {
      && (!dirExists ==> files == map[])
      && forall m :: m in files && files[m].Parsed? ==> files[m].value.month == m
    }

    constructor ()
      ensures Valid() && !dirExists && files == map[]
    {
      dirExists := false;
      files := map[];
    }

    /** `loadMonthlyLog(month)`: the stored record, or a fresh empty one
        when the file is missing or does not parse. */
    function LoadMonthlyLog(month: string): (r: MonthlyQueryLog)
      reads this
      ensures month in files && files[month].Parsed? ==> r == files[month].value
      ensures !(month in files && files[month].Parsed?) ==> r == EmptyLog(month)
      ensures Valid() ==> r.month == month
    {
      if month in files && files[month].Parsed? then files[month].value else EmptyLog(month)
    }

    /** `logQuery(apiKeyType, query, response, statusCode)` at the instant
        `at`. Only the current month's file is written, with exactly one
        new entry at the end. It never fails: a failed write is swallowed
        and leaves the store as it was. */
    method LogQuery(at: Instant, apiKeyType: string, query: TaxQuery, response: Json, statusCode: int, save: SaveOutcome)
      requires Valid()
      requires apiKeyType == "test" || apiKeyType == "prod"
      modifies this
      ensures Valid()
      ensures var month := CurrentMonth(at);
        var entry := QueryLog(at.iso, apiKeyType, query, response, statusCode);
        if save.Saved? then
          dirExists && files == old(files)[month := Parsed(Logged(old(LoadMonthlyLog(month)), entry))]
        else
          dirExists == old(dirExists) && files == old(files)
    {
      var month := CurrentMonth(at);
      var monthlyLog := LoadMonthlyLog(month);
      var queryLog := QueryLog(at.iso, apiKeyType, query, response, statusCode);
      monthlyLog := monthlyLog.(queries := monthlyLog.queries + [queryLog]);
      if save.Saved? {
        dirExists := true;
        files := files[monthlyLog.month := Parsed(monthlyLog)];
      }
    }

    /** `getAllLogs()`: reads the month files in directory order, which is
        left open, then sorts them by month, newest first. A file that does
        not parse ends the read, and what was read before it is returned
        unsorted. */
    method GetAllLogs() returns (logs: seq<MonthlyQueryLog>)
      requires Valid()
      ensures forall x :: x in logs ==> x.month in files && files[x.month] == Parsed(x)
      ensures |logs| <= |files|
      ensures !dirExists ==> logs == []
      ensures AllParsed(files) ==>
        && |logs| == |files|
        && (forall m :: m in files ==> files[m].value in logs)
        && SortedDescending(logs, QueryMonth)
    {
      logs := [];
      if !dirExists {
        return;
      }
      var complete;
      logs, complete := ReadMonthFiles(files, QueryMonth);
      if !complete {
        return;
      }
      var sorted := new MonthlyQueryLog[|logs|](i requires 0 <= i < |logs| => logs[i]);
      assert sorted[..] == logs;
      ghost var order := SortDescending(sorted, QueryMonth);
      PermutationMembers(sorted[..], logs);
      logs := sorted[..];
    }
  }
}
