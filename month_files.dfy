/** The directory listing loop shared by `getAllCosts` and `getAllLogs`:
    read every month file in directory order, stopping at the first one
    that does not parse. */
module MonthFiles {
  import opened Types

  predicate AllParsed<T>(files: map<string, Stored<T>>)
  {
    forall m :: m in files ==> files[m].Parsed?
  }

  /** Every file that parses holds the record of its own month. */
  ghost predicate NamedByMonth<T>(files: map<string, Stored<T>>, monthOf: T -> string)
  {
    forall m :: m in files && files[m].Parsed? ==> monthOf(files[m].value) == m
  }

  /** Reads the files one by one in an order left to the file system.
      `complete` says whether every file was read; if not, `records` holds
      the files read before the first one that does not parse. */
  method ReadMonthFiles<T>(files: map<string, Stored<T>>, monthOf: T -> string)
    returns (records: seq<T>, complete: bool)
    requires NamedByMonth(files, monthOf)
    ensures forall x :: x in records ==> monthOf(x) in files && files[monthOf(x)] == Parsed(x)
    ensures complete <==> AllParsed(files)
    ensures complete ==> |records| == |files| && forall m :: m in files ==> files[m].value in records
    ensures !complete ==> |records| < |files|
  {
    records := [];
    var remaining := files.Keys;
    ghost var visited: set<string> := {};
    while remaining != {}
      invariant remaining <= files.Keys && visited == files.Keys - remaining
      invariant |records| == |visited|
      invariant forall x :: x in records ==> monthOf(x) in visited && files[monthOf(x)] == Parsed(x)
      invariant forall m :: m in visited ==> files[m].Parsed? && files[m].value in records
      decreases remaining
    {
      var name :| name in remaining;
      if files[name].Corrupt? {
        assert visited < files.Keys;
        return records, false;
      }
      records := records + [files[name].value];
      remaining := remaining - {name};
      visited := visited + {name};
    }
    complete := true;
  }

  /** A permutation has the same length and the same members. */
  lemma PermutationMembers<T>(a: seq<T>, b: seq<T>)
    requires multiset(a) == multiset(b)
    ensures |a| == |b| && forall x :: x in a <==> x in b
  {
    assert |a| == |multiset(a)| && |b| == |multiset(b)|;
    forall x
      ensures x in a <==> x in b
    {
      assert x in a <==> x in multiset(a);
      assert x in b <==> x in multiset(b);
    }
  }
}
