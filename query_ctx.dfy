/**
 * The order Rust gives to `String` values: byte-wise lexicographic order of
 * the UTF-8 encoding, which is the lexicographic order of the characters'
 * code points. Sorting under it is what makes the list of partition SHAs of
 * a query independent of the order in which they were collected.
 */
module StringOrder {
  /** 'a' sorts before or equal to 'b'. */
  predicate StrLe(a: string, b: string)
    decreases |a|
  {
    |a| == 0 || (|b| > 0 && (a[0] < b[0] || (a[0] == b[0] && StrLe(a[1..], b[1..]))))
  }

  lemma {:induction false} StrLeReflexive(a: string)
    ensures StrLe(a, a)
    decreases |a|
  {
    if |a| > 0 {
      StrLeReflexive(a[1..]);
    }
  }

  lemma {:induction false} StrLeTotal(a: string, b: string)
    ensures StrLe(a, b) || StrLe(b, a)
    decreases |a|
  {
    if |a| > 0 && |b| > 0 && a[0] == b[0] {
      StrLeTotal(a[1..], b[1..]);
    }
  }

  lemma {:induction false} StrLeTransitive(a: string, b: string, c: string)
    requires StrLe(a, b) && StrLe(b, c)
    ensures StrLe(a, c)
    decreases |a|
  {
    if |a| > 0 && a[0] == b[0] && b[0] == c[0] {
      StrLeTransitive(a[1..], b[1..], c[1..]);
    }
  }

  lemma {:induction false} StrLeAntisymmetric(a: string, b: string)
    requires StrLe(a, b) && StrLe(b, a)
    ensures a == b
    decreases |a|
  {
    if |a| > 0 {
      StrLeAntisymmetric(a[1..], b[1..]);
      assert a == [a[0]] + a[1..];
      assert b == [b[0]] + b[1..];
    }
  }

  /** Every element sorts before or equal to every later one. */
  predicate Sorted(s: seq<string>) {
    forall i, j :: 0 <= i < j < |s| ==> StrLe(s[i], s[j])
  }

  /** 'x' sorts before or equal to every element of 's'. */
  predicate Below(x: string, s: seq<string>) {
    forall j :: 0 <= j < |s| ==> StrLe(x, s[j])
  }

  lemma BelowByMembers(x: string, s: seq<string>, pool: seq<string>)
    requires Below(x, pool)
    requires forall y :: y in multiset(s) ==> y in multiset(pool)
    ensures Below(x, s)
  {
    forall j | 0 <= j < |s|
      ensures StrLe(x, s[j])
    {
      assert s[j] in multiset(s);
      var k :| 0 <= k < |pool| && pool[k] == s[j];
    }
  }

  /** 'x' put into its place in the sorted sequence 's'. */
  function Insert(x: string, s: seq<string>): (r: seq<string>)
    requires Sorted(s)
    ensures Sorted(r)
    ensures multiset(r) == multiset(s) + multiset{x}
    decreases |s|
  {
    if |s| == 0 then [x]
    else if StrLe(x, s[0]) then
      InsertFront(x, s);
      [x] + s
    else
      StrLeTotal(x, s[0]);
      var t := Insert(x, s[1..]);
      InsertLater(x, s, t);
      [s[0]] + t
  }

  lemma InsertFront(x: string, s: seq<string>)
    requires Sorted(s) && |s| > 0 && StrLe(x, s[0])
    ensures Sorted([x] + s)
    ensures multiset([x] + s) == multiset(s) + multiset{x}
  {
    forall j | 0 <= j < |s|
      ensures StrLe(x, s[j])
    {
      if j > 0 {
        StrLeTransitive(x, s[0], s[j]);
      }
    }
  }

  lemma InsertLater(x: string, s: seq<string>, t: seq<string>)
    requires Sorted(s) && |s| > 0 && StrLe(s[0], x)
    requires Sorted(t) && multiset(t) == multiset(s[1..]) + multiset{x}
    ensures Sorted([s[0]] + t)
    ensures multiset([s[0]] + t) == multiset(s) + multiset{x}
  {
    assert s == [s[0]] + s[1..];
    var pool := [x] + s[1..];
    assert Below(s[0], pool) by {
      forall j | 0 <= j < |pool|
        ensures StrLe(s[0], pool[j])
      {
        if j > 0 {
          assert pool[j] == s[j];
        }
      }
    }
    assert multiset(pool) == multiset(t);
    BelowByMembers(s[0], t, pool);
  }

  /** 's' in ascending order: an insertion sort standing for `Vec::sort`. */
  function SortStrings(s: seq<string>): (r: seq<string>)
    ensures Sorted(r)
    ensures multiset(r) == multiset(s)
    decreases |s|
  {
    if |s| == 0 then []
    else
      assert s == [s[0]] + s[1..];
      Insert(s[0], SortStrings(s[1..]))
  }

  /** The head of a sorted sequence sorts before or equal to each of its elements. */
  lemma SortedHeadBelow(a: seq<string>, x: string)
    requires Sorted(a) && x in multiset(a)
    ensures StrLe(a[0], x)
  {
    var k :| 0 <= k < |a| && a[k] == x;
    if k == 0 {
      StrLeReflexive(x);
    }
  }

  lemma TailMultiset(a: seq<string>)
    requires |a| > 0
    ensures multiset(a[1..]) == multiset(a) - multiset{a[0]}
  {
    assert a == [a[0]] + a[1..];
  }

  /** A sorted permutation is unique: the sorted list depends only on the multiset. */
  lemma {:induction false} SortedUnique(a: seq<string>, b: seq<string>)
    requires Sorted(a) && Sorted(b)
    requires multiset(a) == multiset(b)
    ensures a == b
    decreases |a|
  {
    if |a| == 0 {
      assert |multiset(b)| == 0;
    } else {
      assert |b| == |multiset(b)|;
      assert a[0] in multiset(a);
      assert b[0] in multiset(b);
      SortedHeadBelow(a, b[0]);
      SortedHeadBelow(b, a[0]);
      StrLeAntisymmetric(a[0], b[0]);
      TailMultiset(a);
      TailMultiset(b);
      SortedUnique(a[1..], b[1..]);
      assert a == [a[0]] + a[1..];
      assert b == [b[0]] + b[1..];
    }
  }

  /** Two collections holding the same SHAs, in whatever order, sort to the same list. */
  lemma SortIsOrderIndependent(a: seq<string>, b: seq<string>)
    requires multiset(a) == multiset(b)
    ensures SortStrings(a) == SortStrings(b)
  {
    SortedUnique(SortStrings(a), SortStrings(b));
  }
}

/**
 * The per-query context of the query service, restricted to the state it
 * changes itself: the queue of partitions the pipeline's sources take work
 * from, the fragment id counter, the version strings it reports, and (in the
 * state shared by every context of one query) the collected partition SHAs.
 */
module QueryCtx {
  import opened Wrappers
  import opened Seqs
  import opened StringOrder

  const MysqlVersion := "8.0.26"
  const ClickhouseVersion := "8.12.14"

  /** An unsigned machine word (`usize` on a 64-bit target). */
  newtype Usize = x: int | 0 <= x < 0x1_0000_0000_0000_0000

  /** Adding one to a `usize` atomic: wraps around to 0 past the largest value. */
  function WrappingIncrement(x: Usize): (r: Usize)
    ensures x as int + 1 < 0x1_0000_0000_0000_0000 ==> r as int == x as int + 1
    ensures x as int + 1 == 0x1_0000_0000_0000_0000 ==> r == 0
  {
    ((x as int + 1) % 0x1_0000_0000_0000_0000) as Usize
  }

  /** The version a native client sees: "DatabendQuery " and the build's commit. */
  function DatabendVersion(commit: string): string {
    "DatabendQuery " + commit
  }

  /** The version a MySQL client sees: the emulated MySQL version, a dash, the commit. */
  function MysqlVersionFor(commit: string): string {
    MysqlVersion + "-" + commit
  }

  /** The protocol a session speaks; every other kind of session is 'Other'. */
  datatype SessionType = Clickhouse | MySQL | Other

  /**
   * The version string reported to a session of type 't'. The three strings
   * differ, so the version reported tells which kind of session asked.
   */
  function FuseVersion(t: SessionType, commit: string): (v: string)
    ensures v == ClickhouseVersion <==> t == Clickhouse
    ensures v == MysqlVersionFor(commit) <==> t == MySQL
    ensures v == DatabendVersion(commit) <==> t == Other
  {
    assert ClickhouseVersion[2] != MysqlVersionFor(commit)[2];
    assert DatabendVersion(commit)[0] != ClickhouseVersion[0];
    assert DatabendVersion(commit)[0] != MysqlVersionFor(commit)[0];
    match t
    case Clickhouse => ClickhouseVersion
    case MySQL => MysqlVersionFor(commit)
    case Other => DatabendVersion(commit)
  }

  /**
   * The first min(num, |q|) partitions of 'q' and what is left behind them:
   * what one `get_partitions(num)` hands out and keeps.
   */
  function TakeFront<Part>(q: seq<Part>, num: nat): (r: (seq<Part>, seq<Part>))
    ensures r.0 + r.1 == q
    ensures |r.0| == Min(num, |q|)
  {
    var k := Min(num, |q|);
    assert q == q[..k] + q[k..];
    (q[..k], q[k..])
  }

  /**
   * The batches that successive `get_partitions` calls with sizes 'nums'
   * hand out from 'q', and the queue left after the last of them.
   */
  function TakeBatches<Part>(q: seq<Part>, nums: seq<nat>): (seq<seq<Part>>, seq<Part>)
    decreases |nums|
  {
    if |nums| == 0 then ([], q)
    else
      var (batch, rest) := TakeFront(q, nums[0]);
      var (batches, left) := TakeBatches(rest, nums[1..]);
      ([batch] + batches, left)
  }

  /** Handing partitions out in batches loses, duplicates and reorders none of them. */
  lemma {:induction false} TakeBatchesReassemble<Part>(q: seq<Part>, nums: seq<nat>)
    ensures Concat(TakeBatches(q, nums).0) + TakeBatches(q, nums).1 == q
    decreases |nums|
  {
    if |nums| > 0 {
      var (batch, rest) := TakeFront(q, nums[0]);
      var (batches, left) := TakeBatches(rest, nums[1..]);
      TakeBatchesReassemble(rest, nums[1..]);
      assert ([batch] + batches)[1..] == batches;
      assert Concat([batch] + batches) == batch + Concat(batches);
    }
  }

  /** The ids 'n' successive `get_fragment_id` calls return when the counter holds 'start'. */
  function FragmentIds(start: Usize, n: nat): (ids: seq<Usize>)
    ensures |ids| == n
    decreases n
  {
    if n == 0 then [] else [start] + FragmentIds(WrappingIncrement(start), n - 1)
  }

  /** Short of wrap-around the ids count up from 'start', one per call. */
  lemma {:induction false} FragmentIdsCountUp(start: Usize, n: nat)
    requires start as int + n <= 0x1_0000_0000_0000_0000
    ensures forall i :: 0 <= i < n ==> FragmentIds(start, n)[i] as int == start as int + i
    decreases n
  {
    if n > 0 {
      var next := WrappingIncrement(start);
      FragmentIdsCountUp(next, n - 1);
      forall i | 0 <= i < n
        ensures FragmentIds(start, n)[i] as int == start as int + i
      {
        if i > 0 {
          assert FragmentIds(start, n)[i] == FragmentIds(next, n - 1)[i - 1];
        }
      }
    }
  }

  /** Each id in the run is the wrapping increment of the one before. */
  lemma {:induction false} FragmentIdsStep(start: Usize, n: nat, k: nat)
    requires k + 1 < n
    ensures FragmentIds(start, n)[k + 1] == WrappingIncrement(FragmentIds(start, n)[k])
    decreases k
  {
    if k > 0 {
      FragmentIdsStep(WrappingIncrement(start), n - 1, k - 1);
    }
  }

  /** From a fresh context the ids are 0, 1, 2, ..., and no id is handed out twice. */
  lemma FragmentIdsFromZero(n: nat)
    requires n <= 0x1_0000_0000_0000_0000
    ensures forall i :: 0 <= i < n ==> FragmentIds(0, n)[i] as int == i
    ensures forall i, j :: 0 <= i < j < n ==> FragmentIds(0, n)[i] != FragmentIds(0, n)[j]
  {
    FragmentIdsCountUp(0, n);
  }

  /** The state every context of one query shares. */
  class QueryContextShared {
    /** The kind of the session running the query. */
    const sessionType: SessionType
    /** The SHAs of the partitions the query read, in the order they were added. */
    var partitionsShas: seq<string>

    constructor (sessionType: SessionType)
      ensures this.sessionType == sessionType
      ensures partitionsShas == []
    {
      this.sessionType := sessionType;
      partitionsShas := [];
    }
  }

  /** One query context; 'Part' stands for the partition descriptors it queues. */
  class QueryContext<Part> {
    /** The commit of the running build, from which the version strings are made. */
    ghost const commit: string
    const version: string
    const mysqlVersion: string
    const clickhouseVersion: string
    const shared: QueryContextShared
    var partitionQueue: seq<Part>
    var fragmentId: Usize

    /** The version strings are the ones made from the build's commit. */
    ghost predicate Valid() {
      version == DatabendVersion(commit)
      && mysqlVersion == MysqlVersionFor(commit)
      && clickhouseVersion == ClickhouseVersion
    }

    /** A new context over 'shared': no partitions queued, fragment ids start at 0. */
    constructor CreateFromShared(shared: QueryContextShared, commit: string)
      ensures Valid() && this.commit == commit
      ensures this.shared == shared
      ensures partitionQueue == [] && fragmentId == 0
    {
      this.commit := commit;
      partitionQueue := [];
      version := DatabendVersion(commit);
      mysqlVersion := MysqlVersionFor(commit);
      clickhouseVersion := ClickhouseVersion;
      this.shared := shared;
      fragmentId := 0;
    }

    /** A new context over the shared state of 'other', with a queue and counter of its own. */
    constructor CreateFrom(other: QueryContext<Part>, commit: string)
      ensures Valid() && this.commit == commit
      ensures shared == other.shared
      ensures partitionQueue == [] && fragmentId == 0
    {
      this.commit := commit;
      partitionQueue := [];
      version := DatabendVersion(commit);
      mysqlVersion := MysqlVersionFor(commit);
      clickhouseVersion := ClickhouseVersion;
      shared := other.shared;
      fragmentId := 0;
    }

    /** Pops the front partition; none when the queue is empty. */
    method GetPartition() returns (part: Option<Part>)
      modifies this`partitionQueue
      ensures part.None? <==> |old(partitionQueue)| == 0
      ensures part.None? ==> partitionQueue == old(partitionQueue)
      ensures part.Some? ==>
                part.value == old(partitionQueue)[0] && partitionQueue == old(partitionQueue)[1..]
    {
      if |partitionQueue| == 0 {
        return None;
      }
      part := Some(partitionQueue[0]);
      partitionQueue := partitionQueue[1..];
    }

    /**
     * Pops up to 'num' partitions, stopping early when the queue runs dry:
     * the first min(num, n) partitions in queue order, the rest stay queued.
     */
    method GetPartitions(num: nat) returns (res: seq<Part>)
      modifies this`partitionQueue
      ensures (res, partitionQueue) == TakeFront(old(partitionQueue), num)
      ensures res == old(partitionQueue)[..Min(num, |old(partitionQueue)|)]
      ensures partitionQueue == old(partitionQueue)[Min(num, |old(partitionQueue)|)..]
    {
      res := [];
      var index := 0;
      while index < num
        invariant index <= num
        invariant |res| == index
        invariant res + partitionQueue == old(partitionQueue)
      {
        var part := GetPartition();
        match part {
          case None =>
            break;
          case Some(p) =>
            res := res + [p];
        }
        index := index + 1;
      }
      assert |res| == Min(num, |old(partitionQueue)|);
      assert res == old(partitionQueue)[..|res|];
    }

    /** Replaces the whole queue by 'partitions', in their order. */
    method SetPartitions(partitions: seq<Part>) returns (r: Result<(), string>)
      modifies this`partitionQueue
      ensures r.Ok?
      ensures partitionQueue == partitions
    {
      partitionQueue := [];
      for i := 0 to |partitions|
        invariant partitionQueue == partitions[..i]
      {
        partitionQueue := partitionQueue + [partitions[i]];
      }
      assert partitions[..|partitions|] == partitions;
      return Ok(());
    }

    /** Records the SHA of one more partition the query read. */
    method AddPartitionsSha(s: string)
      modifies shared`partitionsShas
      ensures shared.partitionsShas == old(shared.partitionsShas) + [s]
    {
      shared.partitionsShas := shared.partitionsShas + [s];
    }

    /**
     * The recorded SHAs in ascending order; the recorded list itself is left
     * as it is. By SortIsOrderIndependent the answer depends only on which
     * SHAs were recorded, not on the order they were recorded in.
     */
    method GetPartitionsShas() returns (shas: seq<string>)
      ensures Sorted(shas)
      ensures multiset(shas) == multiset(shared.partitionsShas)
    {
      shas := shared.partitionsShas;
      shas := SortStrings(shas);
    }

    /** Hands out the counter's value and advances it by one (wrapping like `fetch_add`). */
    method GetFragmentId() returns (id: Usize)
      modifies this`fragmentId
      ensures id == old(fragmentId)
      ensures fragmentId == WrappingIncrement(old(fragmentId))
    {
      id := fragmentId;
      fragmentId := WrappingIncrement(fragmentId);
    }

    /**
     * What a caller sees calling `get_fragment_id` 'n' times in a row: the
     * ids are FragmentIds of the starting counter, and the counter ends
     * where the next call would start.
     */
    method GetFragmentIds(n: nat) returns (ids: seq<Usize>)
      modifies this`fragmentId
      ensures ids == FragmentIds(old(fragmentId), n)
      ensures fragmentId == FragmentIds(old(fragmentId), n + 1)[n]
    {
      ids := [];
      ghost var start := fragmentId;
      for k := 0 to n
        invariant ids + FragmentIds(fragmentId, n - k) == FragmentIds(start, n)
        invariant fragmentId == FragmentIds(start, n + 1)[k]
      {
        ghost var rest := FragmentIds(fragmentId, n - k);
        ghost var atStart := FragmentIds(start, n + 1);
        assert rest == [fragmentId] + FragmentIds(WrappingIncrement(fragmentId), n - k - 1);
        FragmentIdsStep(start, n + 1, k);
        var id := GetFragmentId();
        ids := ids + [id];
      }
    }

    /** The version string for the kind of session running the query. */
    function GetFuseVersion(): (v: string)
      requires Valid()
      ensures v == FuseVersion(shared.sessionType, commit)
    {
      match shared.sessionType
      case Clickhouse => clickhouseVersion
      case MySQL => mysqlVersion
      case Other => version
    }
  }
}
