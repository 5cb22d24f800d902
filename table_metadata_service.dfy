/**
 * Discovery of what to compare: the table's columns less the excluded ones, whether it is
 * partitioned, its partition keys by level, its partitions matching a filter, and the WHERE
 * condition that restricts a query to one partition.
 */
module TableMetadataService {
  import opened Wrappers
  import opened Types
  import opened QueryEngine
  import opened JavaStrings
  import opened JavaLists

  function ShowColumnsQuery(database: string, tableName: string): string
  {
    "SHOW COLUMNS FROM " + database + "." + tableName
  }

  function ShowPartitionsQuery(database: string, tableName: string): string
  {
    "SHOW PARTITIONS " + database + "." + tableName
  }

  const NoColumnsLeft: JavaException :=
    JavaException(IllegalStateException, Some("No columns to compare after exclusions"), None)

  // ---------------------------------------------------------------- columns

  /** The exclude entries: the whole list lower-cased, then split on commas; entries are not trimmed. */
  function ExcludeEntries(excludeColumns: string): seq<string>
  {
    Split(ToLowerCase(excludeColumns), ',')
  }

  /** A column is excluded when its lower-cased, trimmed name is one of the entries. */
  predicate IsExcluded(column: string, entries: seq<string>)
  {
    Trim(ToLowerCase(column)) in entries
  }

  /** The columns that removeIf keeps, in their original order and spelling. */
  function Surviving(columns: seq<string>, entries: seq<string>): seq<string>
  {
    RemoveIf(columns, c => IsExcluded(c, entries))
  }

  /** The exclusion step runs only for a non-null, non-blank exclude list. */
  predicate ExclusionApplies(excludeColumns: Option<string>)
  {
    excludeColumns.Some? && !IsBlank(excludeColumns.value)
  }

  function ColumnsAfterExclusion(all: seq<string>, excludeColumns: Option<string>): Result<seq<string>, JavaException>
  {
    var kept := if ExclusionApplies(excludeColumns) then Surviving(all, ExcludeEntries(excludeColumns.value)) else all;
    if |kept| == 0 then Failure(NoColumnsLeft) else Success(kept)
  }

  /** getColumns */
  function ColumnsSpec(engine: Engine, database: string, tableName: string, excludeColumns: Option<string>)
    : Result<seq<string>, JavaException>
  {
    match engine.listing(ShowColumnsQuery(database, tableName))
    case Failure(e) => Failure(e)
    case Success(rows) => ColumnsAfterExclusion(rows, excludeColumns)
  }

  method GetColumns(engine: Engine, database: string, tableName: string, excludeColumns: Option<string>)
    returns (columns: Result<seq<string>, JavaException>)
    ensures columns == ColumnsSpec(engine, database, tableName, excludeColumns)
  {
    var listed := engine.listing(ShowColumnsQuery(database, tableName));
    if listed.Failure? {
      return Failure(listed.error);
    }
    var rows := listed.value;
    var allColumns: seq<string> := [];
    var i := 0;
    while i < |rows|
      invariant 0 <= i <= |rows|
      invariant allColumns == rows[..i]
    {
      allColumns := allColumns + [rows[i]];
      i := i + 1;
    }
    assert allColumns == rows;
    if ExclusionApplies(excludeColumns) {
      var excludeSet := ExcludeEntries(excludeColumns.value);
      var kept: seq<string> := [];
      for j := 0 to |allColumns|
        invariant kept == Surviving(allColumns[..j], excludeSet)
      {
        assert allColumns[..j + 1] == allColumns[..j] + [allColumns[j]];
        RemoveIfSnoc(allColumns[..j], allColumns[j], c => IsExcluded(c, excludeSet));
        if !IsExcluded(allColumns[j], excludeSet) {
          kept := kept + [allColumns[j]];
        }
      }
      assert allColumns[..|allColumns|] == allColumns;
      allColumns := kept;
    }
    if |allColumns| == 0 {
      return Failure(NoColumnsLeft);
    }
    return Success(allColumns);
  }

  /** A column survives iff it was listed and is not excluded. */
  lemma SurvivingMembers(columns: seq<string>, entries: seq<string>)
    ensures forall c :: c in Surviving(columns, entries) <==> c in columns && !IsExcluded(c, entries)
  {
    RemoveIfMembers(columns, c => IsExcluded(c, entries));
  }

  /** Exclusion works column by column, so the survivors keep their relative order. */
  lemma SurvivingAppend(a: seq<string>, b: seq<string>, entries: seq<string>)
    ensures Surviving(a + b, entries) == Surviving(a, entries) + Surviving(b, entries)
  {
    RemoveIfAppend(a, b, c => IsExcluded(c, entries));
  }

  /** A null or blank exclude list removes nothing; the only failure is a table without columns. */
  lemma BlankExcludesRemoveNothing(all: seq<string>, excludeColumns: Option<string>)
    requires excludeColumns.None? || IsBlank(excludeColumns.value)
    ensures ColumnsAfterExclusion(all, excludeColumns) == if |all| == 0 then Failure(NoColumnsLeft) else Success(all)
  {
  }

  /**
   * The exclusion step fails exactly when nothing survives; on success every returned column
   * was listed and is not excluded.
   */
  lemma ExclusionOutcome(all: seq<string>, excludeColumns: Option<string>)
    ensures var r := ColumnsAfterExclusion(all, excludeColumns);
            && (r.Failure? <==> (if ExclusionApplies(excludeColumns) then Surviving(all, ExcludeEntries(excludeColumns.value)) else all) == [])
            && (r.Failure? ==> r.error == NoColumnsLeft)
            && (r.Success? ==> |r.value| > 0 && forall c :: c in r.value ==> c in all)
            && (r.Success? && ExclusionApplies(excludeColumns) ==>
                  forall c :: c in r.value ==> !IsExcluded(c, ExcludeEntries(excludeColumns.value)))
  {
    if ExclusionApplies(excludeColumns) {
      SurvivingMembers(all, ExcludeEntries(excludeColumns.value));
    }
  }

  /**
   * The column names are trimmed before the lookup but the entries are not, so an entry that
   * begins or ends with a blank (as after "a, b") excludes no column at all.
   */
  lemma PaddedEntryExcludesNothing(column: string, entry: string)
    requires entry != "" && (entry[0] <= ' ' || entry[|entry| - 1] <= ' ')
    ensures Trim(ToLowerCase(column)) != entry
  {
  }

  // ---------------------------------------------------------------- partitioning

  /** isPartitioned: some partition is listed; a listing that throws SQLException means "not partitioned". */
  function PartitionedSpec(engine: Engine, database: string, tableName: string): (r: Result<bool, JavaException>)
    ensures r == Success(true) <==> (engine.listing(ShowPartitionsQuery(database, tableName)).Success?
                                     && |engine.listing(ShowPartitionsQuery(database, tableName)).value| > 0)
    ensures r.Failure? <==> (engine.listing(ShowPartitionsQuery(database, tableName)).Failure?
                             && engine.listing(ShowPartitionsQuery(database, tableName)).error.kind != SQLException)
  {
    match engine.listing(ShowPartitionsQuery(database, tableName))
    case Success(rows) => Success(|rows| > 0)
    case Failure(e) => if e.kind == SQLException then Success(false) else Failure(e)
  }

  /** keyValue[0] of a segment whose split on '=' has exactly two fields. */
  function SegmentKey(segment: string): Option<string>
  {
    var keyValue := Split(segment, '=');
    if |keyValue| == 2 then Some(keyValue[0]) else None
  }

  /**
   * The keys put for the first n segments: level i + 1 for segment i when that segment has a
   * key, and no other level.
   */
  function KeysOfSegments(parts: seq<string>, n: nat): (keys: map<nat, string>)
    requires n <= |parts|
    ensures forall l :: l in keys ==> 1 <= l <= n
    ensures forall i :: 0 <= i < n ==> (SegmentKey(parts[i]).Some? <==> i + 1 in keys)
    ensures forall i :: 0 <= i < n && SegmentKey(parts[i]).Some? ==> i + 1 in keys && keys[i + 1] == SegmentKey(parts[i]).value
  {
    if n == 0 then map[]
    else
      var keys := KeysOfSegments(parts, n - 1);
      var key := SegmentKey(parts[n - 1]);
      if key.Some? then keys[n := key.value] else keys
  }

  /** The keys parsed from a listed partition such as "year=2023/month=01". */
  function PartitionKeysOf(firstPartition: string): map<nat, string>
  {
    var parts := Split(firstPartition, '/');
    KeysOfSegments(parts, |parts|)
  }

  /** getPartitionKeys: parsed from the first listed partition; no keys when none is listed. */
  function PartitionKeysSpec(engine: Engine, database: string, tableName: string): Result<map<nat, string>, JavaException>
  {
    match engine.listing(ShowPartitionsQuery(database, tableName))
    case Failure(e) => Failure(e)
    case Success(rows) => Success(if |rows| == 0 then map[] else PartitionKeysOf(rows[0]))
  }

  method GetPartitionKeys(engine: Engine, database: string, tableName: string)
    returns (keys: Result<map<nat, string>, JavaException>)
    ensures keys == PartitionKeysSpec(engine, database, tableName)
  {
    var listed := engine.listing(ShowPartitionsQuery(database, tableName));
    if listed.Failure? {
      return Failure(listed.error);
    }
    var partitionKeys: map<nat, string> := map[];
    if |listed.value| > 0 {
      var firstPartition := listed.value[0];
      var parts := Split(firstPartition, '/');
      for i := 0 to |parts|
        invariant partitionKeys == KeysOfSegments(parts, i)
      {
        var keyValue := Split(parts[i], '=');
        if |keyValue| == 2 {
          partitionKeys := partitionKeys[i + 1 := keyValue[0]];
        }
      }
    }
    return Success(partitionKeys);
  }

  // ---------------------------------------------------------------- descriptors

  /** One key=value pair of a partition descriptor. */
  datatype KeyValue = KeyValue(key: string, value: string)

  function Segment(kv: KeyValue): string
  {
    kv.key + "=" + kv.value
  }

  function Segments(pairs: seq<KeyValue>): (s: seq<string>)
    ensures |s| == |pairs|
  {
    seq(|pairs|, i requires 0 <= i < |pairs| => Segment(pairs[i]))
  }

  /** "k1=v1/k2=v2/..." */
  function Descriptor(pairs: seq<KeyValue>): string
  {
    Join(Segments(pairs), "/")
  }

  /** A pair that survives both splits unchanged: no '=' or '/' inside, and a non-empty value. */
  predicate PlainPair(kv: KeyValue)
  {
    '=' !in kv.key && '/' !in kv.key && '=' !in kv.value && '/' !in kv.value && kv.value != ""
  }

  predicate AllPlain(pairs: seq<KeyValue>)
  {
    forall i :: 0 <= i < |pairs| ==> PlainPair(pairs[i])
  }

  lemma SegmentSplits(kv: KeyValue)
    requires PlainPair(kv)
    ensures Split(Segment(kv), '=') == [kv.key, kv.value]
  {
    assert Join([kv.key, kv.value], "=") == Segment(kv);
    SplitOfJoin([kv.key, kv.value], '=');
  }

  lemma DescriptorSplits(pairs: seq<KeyValue>)
    requires |pairs| >= 1 && AllPlain(pairs)
    ensures Split(Descriptor(pairs), '/') == Segments(pairs)
  {
    var segs := Segments(pairs);
    forall i | 0 <= i < |segs|
      ensures '/' !in segs[i]
    {
      assert segs[i] == pairs[i].key + "=" + pairs[i].value;
    }
    if |pairs| == 1 {
      assert Descriptor(pairs) == segs[0];
    } else {
      assert segs[|segs| - 1] != "" by {
        assert |segs[|segs| - 1]| >= 1;
      }
      SplitOfJoin(segs, '/');
    }
  }

  /** The listed partition "k1=v1/.../kn=vn" yields exactly the levels 1..n, level i + 1 holding key i. */
  lemma KeysOfDescriptor(pairs: seq<KeyValue>)
    requires |pairs| >= 1 && AllPlain(pairs)
    ensures var keys := PartitionKeysOf(Descriptor(pairs));
            && (forall l :: l in keys <==> 1 <= l <= |pairs|)
            && (forall i :: 0 <= i < |pairs| ==> i + 1 in keys && keys[i + 1] == pairs[i].key)
  {
    DescriptorSplits(pairs);
    var segs := Segments(pairs);
    forall i | 0 <= i < |pairs|
      ensures SegmentKey(segs[i]) == Some(pairs[i].key)
    {
      SegmentSplits(pairs[i]);
    }
    var keys := PartitionKeysOf(Descriptor(pairs));
    forall l | 1 <= l <= |pairs|
      ensures l in keys
    {
      assert SegmentKey(segs[l - 1]).Some?;
    }
  }

  /** A two-level partition such as "year=2025/month=01" gives {1: "year", 2: "month"}. */
  lemma TwoLevelKeys(k1: string, v1: string, k2: string, v2: string)
    requires PlainPair(KeyValue(k1, v1)) && PlainPair(KeyValue(k2, v2))
    ensures PartitionKeysOf(Segment(KeyValue(k1, v1)) + "/" + Segment(KeyValue(k2, v2))) == map[1 := k1, 2 := k2]
  {
    var pairs := [KeyValue(k1, v1), KeyValue(k2, v2)];
    TwoPairDescriptor(pairs[0], pairs[1]);
    KeysOfDescriptor(pairs);
    LevelsOneAndTwo(PartitionKeysOf(Descriptor(pairs)), k1, k2);
  }

  lemma LevelsOneAndTwo(keys: map<nat, string>, a: string, b: string)
    requires forall l :: l in keys <==> 1 <= l <= 2
    requires 1 in keys && keys[1] == a && 2 in keys && keys[2] == b
    ensures keys == map[1 := a, 2 := b]
  {
    assert keys.Keys == {1, 2};
  }

  // ---------------------------------------------------------------- partitions

  function Lookup(keys: map<nat, string>, level: nat): Option<string>
  {
    if level in keys then Some(keys[level]) else None
  }

  function DistinctTwoQuery(firstKey: Option<string>, secondKey: string, database: string, tableName: string,
                            whereCondition: string): string
  {
    "SELECT DISTINCT " + Str(firstKey) + ", " + secondKey + " FROM " + database + "." + tableName + " WHERE " + whereCondition
  }

  function DistinctOneQuery(key: string, database: string, tableName: string, whereCondition: string): string
  {
    "SELECT DISTINCT " + key + " FROM " + database + "." + tableName + " WHERE " + whereCondition
  }

  /** "%s=%s/%s=%s" of the two keys and the row's two values (null renders as "null"). */
  function TwoLevelDescriptor(firstKey: Option<string>, secondKey: string, row: PartitionRow): string
  {
    Segment(KeyValue(Str(firstKey), Str(row.first))) + "/" + Segment(KeyValue(secondKey, Str(row.second)))
  }

  /** "%s=%s" of the key and the row's value. */
  function OneLevelDescriptor(key: string, row: PartitionRow): string
  {
    Segment(KeyValue(key, Str(row.first)))
  }

  function TwoLevelDescriptors(firstKey: Option<string>, secondKey: string, rows: seq<PartitionRow>): (ps: seq<string>)
    ensures |ps| == |rows|
    ensures forall i :: 0 <= i < |rows| ==> ps[i] == TwoLevelDescriptor(firstKey, secondKey, rows[i])
  {
    seq(|rows|, i requires 0 <= i < |rows| => TwoLevelDescriptor(firstKey, secondKey, rows[i]))
  }

  function OneLevelDescriptors(key: string, rows: seq<PartitionRow>): (ps: seq<string>)
    ensures |ps| == |rows|
    ensures forall i :: 0 <= i < |rows| ==> ps[i] == OneLevelDescriptor(key, rows[i])
  {
    seq(|rows|, i requires 0 <= i < |rows| => OneLevelDescriptor(key, rows[i]))
  }

  /**
   * getPartitions: no partitions without keys; with a level-2 key the distinct combinations of
   * the first two levels; with only a level-1 key its distinct values; otherwise none.
   */
  function PartitionsSpec(engine: Engine, database: string, tableName: string, whereCondition: string)
    : Result<seq<string>, JavaException>
  {
    match PartitionKeysSpec(engine, database, tableName)
    case Failure(e) => Failure(e)
    case Success(keys) =>
      if keys == map[] then Success([])
      else if 2 in keys then
        match engine.distinct(DistinctTwoQuery(Lookup(keys, 1), keys[2], database, tableName, whereCondition))
        case Failure(e) => Failure(e)
        case Success(rows) => Success(TwoLevelDescriptors(Lookup(keys, 1), keys[2], rows))
      else if 1 in keys then
        match engine.distinct(DistinctOneQuery(keys[1], database, tableName, whereCondition))
        case Failure(e) => Failure(e)
        case Success(rows) => Success(OneLevelDescriptors(keys[1], rows))
      else Success([])
  }

  /** The while (rs.next()) loop of the two-level query: one descriptor per row, in row order. */
  method CollectTwoLevel(firstKey: Option<string>, secondKey: string, rows: seq<PartitionRow>)
    returns (partitions: seq<string>)
    ensures partitions == TwoLevelDescriptors(firstKey, secondKey, rows)
  {
    partitions := [];
    var r := 0;
    while r < |rows|
      invariant 0 <= r <= |rows|
      invariant |partitions| == r
      invariant forall i :: 0 <= i < r ==> partitions[i] == TwoLevelDescriptor(firstKey, secondKey, rows[i])
    {
      partitions := partitions + [TwoLevelDescriptor(firstKey, secondKey, rows[r])];
      r := r + 1;
    }
  }

  /** The while (rs.next()) loop of the one-level query. */
  method CollectOneLevel(key: string, rows: seq<PartitionRow>) returns (partitions: seq<string>)
    ensures partitions == OneLevelDescriptors(key, rows)
  {
    partitions := [];
    var r := 0;
    while r < |rows|
      invariant 0 <= r <= |rows|
      invariant |partitions| == r
      invariant forall i :: 0 <= i < r ==> partitions[i] == OneLevelDescriptor(key, rows[i])
    {
      partitions := partitions + [OneLevelDescriptor(key, rows[r])];
      r := r + 1;
    }
  }

  method GetPartitions(engine: Engine, database: string, tableName: string, whereCondition: string)
    returns (partitions: Result<seq<string>, JavaException>)
    ensures partitions == PartitionsSpec(engine, database, tableName, whereCondition)
  {
    var partitionKeys := GetPartitionKeys(engine, database, tableName);
    if partitionKeys.Failure? {
      return Failure(partitionKeys.error);
    }
    var keys := partitionKeys.value;
    if keys == map[] {
      return Success([]);
    }
    var found: seq<string> := [];
    if 2 in keys {
      var firstKey := Lookup(keys, 1);
      var secondKey := keys[2];
      var rs := engine.distinct(DistinctTwoQuery(firstKey, secondKey, database, tableName, whereCondition));
      if rs.Failure? {
        return Failure(rs.error);
      }
      found := CollectTwoLevel(firstKey, secondKey, rs.value);
    } else if 1 in keys {
      var partitionKey := keys[1];
      var rs := engine.distinct(DistinctOneQuery(partitionKey, database, tableName, whereCondition));
      if rs.Failure? {
        return Failure(rs.error);
      }
      found := CollectOneLevel(partitionKey, rs.value);
    }
    return Success(found);
  }

  /** Without a level-1 or level-2 key nothing is listed. */
  lemma PartitionsWithoutKeys(engine: Engine, database: string, tableName: string, whereCondition: string)
    requires PartitionKeysSpec(engine, database, tableName).Success?
    requires var keys := PartitionKeysSpec(engine, database, tableName).value; 1 !in keys && 2 !in keys
    ensures PartitionsSpec(engine, database, tableName, whereCondition) == Success([])
  {
  }

  /** One "k1=v1/k2=v2" per distinct row, in row order, when a level-2 key exists; a failing query fails the listing. */
  lemma TwoLevelPartitions(engine: Engine, database: string, tableName: string, whereCondition: string)
    requires PartitionKeysSpec(engine, database, tableName).Success?
    requires 2 in PartitionKeysSpec(engine, database, tableName).value
    ensures var keys := PartitionKeysSpec(engine, database, tableName).value;
            var r := PartitionsSpec(engine, database, tableName, whereCondition);
            var d := engine.distinct(DistinctTwoQuery(Lookup(keys, 1), keys[2], database, tableName, whereCondition));
            && (r.Success? <==> d.Success?)
            && (d.Failure? ==> r.error == d.error)
            && (d.Success? ==> |r.value| == |d.value|
                               && forall i :: 0 <= i < |d.value| ==>
                                    r.value[i] == Str(Lookup(keys, 1)) + "=" + Str(d.value[i].first) + "/"
                                                  + keys[2] + "=" + Str(d.value[i].second))
  {
    var keys := PartitionKeysSpec(engine, database, tableName).value;
    var d := engine.distinct(DistinctTwoQuery(Lookup(keys, 1), keys[2], database, tableName, whereCondition));
    if d.Success? {
      var ps := TwoLevelDescriptors(Lookup(keys, 1), keys[2], d.value);
      assert PartitionsSpec(engine, database, tableName, whereCondition) == Success(ps);
      forall i | 0 <= i < |d.value|
        ensures ps[i] == Str(Lookup(keys, 1)) + "=" + Str(d.value[i].first) + "/" + keys[2] + "=" + Str(d.value[i].second)
      {
        assert ps[i] == TwoLevelDescriptor(Lookup(keys, 1), keys[2], d.value[i]);
      }
    }
  }

  /** One "k1=v1" per distinct row, in row order, when only a level-1 key exists; a failing query fails the listing. */
  lemma OneLevelPartitions(engine: Engine, database: string, tableName: string, whereCondition: string)
    requires PartitionKeysSpec(engine, database, tableName).Success?
    requires 2 !in PartitionKeysSpec(engine, database, tableName).value
    requires 1 in PartitionKeysSpec(engine, database, tableName).value
    ensures var keys := PartitionKeysSpec(engine, database, tableName).value;
            var r := PartitionsSpec(engine, database, tableName, whereCondition);
            var d := engine.distinct(DistinctOneQuery(keys[1], database, tableName, whereCondition));
            && (r.Success? <==> d.Success?)
            && (d.Failure? ==> r.error == d.error)
            && (d.Success? ==> |r.value| == |d.value|
                               && forall i :: 0 <= i < |d.value| ==> r.value[i] == keys[1] + "=" + Str(d.value[i].first))
  {
    var keys := PartitionKeysSpec(engine, database, tableName).value;
    var d := engine.distinct(DistinctOneQuery(keys[1], database, tableName, whereCondition));
    assert keys != map[];
    if d.Success? {
      var ps := OneLevelDescriptors(keys[1], d.value);
      assert PartitionsSpec(engine, database, tableName, whereCondition) == Success(ps);
    }
  }

  // ---------------------------------------------------------------- partition filter

  /** The condition "%s='%s'" of one key and value. */
  function Quoted(kv: KeyValue): string
  {
    kv.key + "='" + kv.value + "'"
  }

  /** key='value' for a segment whose split on '=' has exactly two fields; nothing otherwise. */
  function Condition(segment: string): Option<string>
  {
    var keyValue := Split(segment, '=');
    if |keyValue| == 2 then Some(Quoted(KeyValue(keyValue[0], keyValue[1]))) else None
  }

  function Conditions(parts: seq<string>): seq<string>
  {
    if |parts| == 0 then []
    else
      var c := Condition(parts[|parts| - 1]);
      Conditions(parts[..|parts| - 1]) + (if c.Some? then [c.value] else [])
  }

  /** buildPartitionFilter */
  function PartitionFilter(partition: Option<string>, baseFilter: string): string
  {
    if partition.None? || partition.value == NoPartition then baseFilter
    else Join(Conditions(Split(partition.value, '/')), " AND ") + " AND " + baseFilter
  }

  method BuildPartitionFilter(partition: Option<string>, baseFilter: string) returns (filter: string)
    ensures filter == PartitionFilter(partition, baseFilter)
  {
    if partition.None? || partition.value == NoPartition {
      return baseFilter;
    }
    var parts := Split(partition.value, '/');
    var partitionConditions: seq<string> := [];
    for i := 0 to |parts|
      invariant partitionConditions == Conditions(parts[..i])
    {
      assert parts[..i + 1][..i] == parts[..i];
      var keyValue := Split(parts[i], '=');
      if |keyValue| == 2 {
        partitionConditions := partitionConditions + [Quoted(KeyValue(keyValue[0], keyValue[1]))];
      }
    }
    assert parts[..|parts|] == parts;
    var partitionFilter := Join(partitionConditions, " AND ");
    return partitionFilter + " AND " + baseFilter;
  }

  /** The sentinel and null leave the base filter unchanged. */
  lemma NoPartitionKeepsFilter(baseFilter: string)
    ensures PartitionFilter(None, baseFilter) == baseFilter
    ensures PartitionFilter(Some(NoPartition), baseFilter) == baseFilter
  {
  }

  lemma {:induction false} ConditionsAppend(a: seq<string>, b: seq<string>)
    ensures Conditions(a + b) == Conditions(a) + Conditions(b)
    decreases |b|
  {
    if |b| == 0 {
      assert a + b == a;
    } else {
      ConditionsAppend(a, b[..|b| - 1]);
      assert (a + b)[..|a + b| - 1] == a + b[..|b| - 1];
      assert (a + b)[|a + b| - 1] == b[|b| - 1];
    }
  }

  /** A segment that does not split into exactly two fields contributes no condition. */
  lemma MalformedSegmentDropped(a: seq<string>, segment: string, b: seq<string>)
    requires |Split(segment, '=')| != 2
    ensures Conditions(a + [segment] + b) == Conditions(a) + Conditions(b)
  {
    var prefix := a + [segment];
    ConditionsAppend(prefix, b);
    assert Condition(segment).None?;
    assert prefix[..|prefix| - 1] == a && prefix[|prefix| - 1] == segment;
    assert Conditions(prefix) == Conditions(a);
  }

  /**
   * A segment "k=" with an empty value loses its trailing empty field in the split, so it is
   * dropped: the partition "k=" filters like the whole table, " AND " + baseFilter.
   */
  lemma EmptyValueDropsCondition(key: string, baseFilter: string)
    requires '=' !in key && '/' !in key
    ensures Condition(key + "=").None?
    ensures PartitionFilter(Some(key + "="), baseFilter) == " AND " + baseFilter
  {
    var s := key + "=";
    SplitAllAfterField(key, "", '=');
    assert s == key + "=" + "";
    assert SplitAll(s, '=') == [key, ""];
    assert s[|key|] == '=';
    assert DropTrailingEmpty([key, ""]) == DropTrailingEmpty([key]);
    assert '/' !in s;
    assert s != NoPartition by {
      assert '=' in s;
      assert '=' !in NoPartition;
    }
    assert Conditions([s]) == [] by {
      var none: seq<string> := [];
      assert [s][..0] == none;
    }
  }

  lemma {:induction false} ConditionsOfSegments(pairs: seq<KeyValue>)
    requires AllPlain(pairs)
    ensures Conditions(Segments(pairs)) == seq(|pairs|, i requires 0 <= i < |pairs| => Quoted(pairs[i]))
    decreases |pairs|
  {
    if |pairs| > 0 {
      var init := pairs[..|pairs| - 1];
      ConditionsOfSegments(init);
      assert Segments(pairs)[..|pairs| - 1] == Segments(init);
      SegmentSplits(pairs[|pairs| - 1]);
    }
  }

  /**
   * For the partition "k1=v1/.../kn=vn" the filter is "k1='v1' AND ... AND kn='vn'", the pairs
   * in descriptor order, followed by " AND " and the base filter.
   */
  lemma FilterOfDescriptor(pairs: seq<KeyValue>, baseFilter: string)
    requires |pairs| >= 1 && AllPlain(pairs)
    ensures PartitionFilter(Some(Descriptor(pairs)), baseFilter)
         == Join(seq(|pairs|, i requires 0 <= i < |pairs| => Quoted(pairs[i])), " AND ") + " AND " + baseFilter
  {
    DescriptorSplits(pairs);
    ConditionsOfSegments(pairs);
    var d := Descriptor(pairs);
    assert Segments(pairs)[0] == pairs[0].key + "=" + pairs[0].value;
    assert '=' in d by {
      if |pairs| == 1 {
        assert d == Segments(pairs)[0];
      } else {
        assert d == Segments(pairs)[0] + "/" + Join(Segments(pairs)[1..], "/");
      }
      assert d[|pairs[0].key|] == '=';
    }
    assert d != NoPartition by {
      assert '=' !in NoPartition;
    }
  }

  /** A discovered one-level partition filters on its own key and value. */
  lemma OneLevelPartitionFilter(key: string, row: PartitionRow, baseFilter: string)
    requires PlainPair(KeyValue(key, Str(row.first)))
    ensures PartitionFilter(Some(OneLevelDescriptor(key, row)), baseFilter)
         == Quoted(KeyValue(key, Str(row.first))) + " AND " + baseFilter
  {
    var pairs := [KeyValue(key, Str(row.first))];
    assert Descriptor(pairs) == OneLevelDescriptor(key, row);
    FilterOfDescriptor(pairs, baseFilter);
  }

  lemma TwoPairDescriptor(p0: KeyValue, p1: KeyValue)
    ensures Descriptor([p0, p1]) == Segment(p0) + "/" + Segment(p1)
  {
    var segs := Segments([p0, p1]);
    assert segs == [Segment(p0), Segment(p1)];
    assert segs[1..] == [Segment(p1)];
    assert Join(segs[1..], "/") == Segment(p1);
  }

  lemma TwoPairFilter(p0: KeyValue, p1: KeyValue, baseFilter: string)
    requires PlainPair(p0) && PlainPair(p1)
    ensures PartitionFilter(Some(Segment(p0) + "/" + Segment(p1)), baseFilter)
         == Quoted(p0) + " AND " + Quoted(p1) + " AND " + baseFilter
  {
    var pairs := [p0, p1];
    TwoPairDescriptor(p0, p1);
    FilterOfDescriptor(pairs, baseFilter);
    var qs := seq(|pairs|, i requires 0 <= i < |pairs| => Quoted(pairs[i]));
    assert qs == [Quoted(p0), Quoted(p1)];
    assert qs[1..] == [Quoted(p1)];
  }

  /** A discovered two-level partition filters on both levels, first level first. */
  lemma TwoLevelPartitionFilter(firstKey: Option<string>, secondKey: string, row: PartitionRow, baseFilter: string)
    requires PlainPair(KeyValue(Str(firstKey), Str(row.first))) && PlainPair(KeyValue(secondKey, Str(row.second)))
    ensures PartitionFilter(Some(TwoLevelDescriptor(firstKey, secondKey, row)), baseFilter)
         == Quoted(KeyValue(Str(firstKey), Str(row.first))) + " AND " + Quoted(KeyValue(secondKey, Str(row.second)))
            + " AND " + baseFilter
  {
    TwoPairFilter(KeyValue(Str(firstKey), Str(row.first)), KeyValue(secondKey, Str(row.second)), baseFilter);
  }

  // ---------------------------------------------------------------- analyzeTable

  function AnalysisSpec(engine: Engine, database: string, tableName: string, excludeColumns: Option<string>)
    : Result<TableMetadata, JavaException>
  {
    match ColumnsSpec(engine, database, tableName, excludeColumns)
    case Failure(e) => Failure(e)
    case Success(columns) =>
      match PartitionedSpec(engine, database, tableName)
      case Failure(e) => Failure(e)
      case Success(partitioned) =>
        if !partitioned then Success(TableMetadata(tableName, database, false, columns, map[], []))
        else
          match PartitionKeysSpec(engine, database, tableName)
          case Failure(e) => Failure(e)
          case Success(keys) => Success(TableMetadata(tableName, database, true, columns, keys, []))
  }

  method AnalyzeTable(engine: Engine, database: string, tableName: string, excludeColumns: Option<string>)
    returns (metadata: Result<TableMetadata, JavaException>)
    ensures metadata == AnalysisSpec(engine, database, tableName, excludeColumns)
  {
    var columns := GetColumns(engine, database, tableName, excludeColumns);
    if columns.Failure? {
      return Failure(columns.error);
    }
    var partitioned := PartitionedSpec(engine, database, tableName);
    if partitioned.Failure? {
      return Failure(partitioned.error);
    }
    var m := TableMetadata(tableName, database, partitioned.value, columns.value, map[], []);
    if partitioned.value {
      var keys := GetPartitionKeys(engine, database, tableName);
      if keys.Failure? {
        // the same listing has just answered with at least one partition
        assert false;
      }
      m := m.(partitionKeys := keys.value);
    }
    return Success(m);
  }

  /**
   * What a successful analysis guarantees: the given names, at least one column, every column
   * listed by SHOW COLUMNS, and "partitioned" exactly when SHOW PARTITIONS lists something.
   */
  lemma AnalysisFacts(engine: Engine, database: string, tableName: string, excludeColumns: Option<string>)
    requires AnalysisSpec(engine, database, tableName, excludeColumns).Success?
    ensures var m := AnalysisSpec(engine, database, tableName, excludeColumns).value;
            && m.database == database && m.tableName == tableName
            && |m.columns| > 0
            && engine.listing(ShowColumnsQuery(database, tableName)).Success?
            && (forall c :: c in m.columns ==> c in engine.listing(ShowColumnsQuery(database, tableName)).value)
            && (m.partitioned <==> engine.listing(ShowPartitionsQuery(database, tableName)).Success?
                                   && |engine.listing(ShowPartitionsQuery(database, tableName)).value| > 0)
            && (!m.partitioned ==> m.partitionKeys == map[])
  {
    ExclusionOutcome(engine.listing(ShowColumnsQuery(database, tableName)).value, excludeColumns);
  }
}
