/** Column profiles of a list of records, over exact arithmetic, and the law by which profiles merge. */
module Profiling {
  import opened Prelude

  /** In Python a boolean is an integer, so it counts as a number; `repr` still tells the three kinds apart. */
  datatype NumberKind = Integer | Float | Boolean

  datatype Value = Null | Number(kind: NumberKind, amount: real) | Other(repr: string)

  type Record = map<string, Value>

  datatype Stats = Stats(min: real, max: real, mean: real)

  datatype ColumnProfile = ColumnProfile(nullCount: nat, uniqueCount: nat, stats: Option<Stats>)
  {
    /** The reported type: the numeric fields are present exactly in numeric columns. */
    predicate Numeric() { stats.Some? }
  }

  datatype DatasetProfile = DatasetProfile(rowCount: nat, columnCount: nat, columns: map<string, ColumnProfile>)

  function ColumnNames(records: seq<Record>): set<string> { set r, k | r in records && k in r.Keys :: k }

  /** `record.get(name)`: an absent column reads as null. */
  function Get(r: Record, name: string): Value { if name in r then r[name] else Null }

  function Column(records: seq<Record>, name: string): seq<Value> {
    if records == [] then [] else [Get(records[0], name)] + Column(records[1..], name)
  }

  function NonNull(values: seq<Value>): seq<Value> {
    if values == [] then [] else (if values[0].Null? then [] else [values[0]]) + NonNull(values[1..])
  }

  function Numbers(values: seq<Value>): seq<real> {
    if values == [] then [] else (if values[0].Number? then [values[0].amount] else []) + Numbers(values[1..])
  }

  function Sum(xs: seq<real>): real { if xs == [] then 0.0 else xs[0] + Sum(xs[1..]) }

  function Min(xs: seq<real>): real
    requires xs != []
  {
    if |xs| == 1 then xs[0] else var m := Min(xs[1..]); if xs[0] <= m then xs[0] else m
  }

  function Max(xs: seq<real>): real
    requires xs != []
  {
    if |xs| == 1 then xs[0] else var m := Max(xs[1..]); if xs[0] >= m then xs[0] else m
  }

  function ProfileColumn(values: seq<Value>): ColumnProfile {
    var nonNull := NonNull(values);
    var numbers := Numbers(nonNull);
    NonNullShorter(values);
    ColumnProfile(
      |values| - |nonNull|,
      |Elements(nonNull)|,
      if nonNull != [] && |numbers| == |nonNull|
      then Some(Stats(Min(numbers), Max(numbers), Sum(numbers) / |numbers| as real))
      else None)
  }

  lemma NonNullShorter(values: seq<Value>)
    ensures |NonNull(values)| <= |values|
  {
  }

  /** A column is named exactly if some record has the key, whatever its value there. */
  lemma NamedIff(records: seq<Record>, name: string)
    ensures name in ColumnNames(records) <==> exists i :: 0 <= i < |records| && name in records[i]
  {
    if i :| 0 <= i < |records| && name in records[i] {
      assert records[i] in records;
    }
  }

  lemma NamesAre(records: seq<Record>)
    ensures forall name :: name in ColumnNames(records) <==> exists i :: 0 <= i < |records| && name in records[i]
  {
    forall name ensures name in ColumnNames(records) <==> exists i :: 0 <= i < |records| && name in records[i] {
      NamedIff(records, name);
    }
  }

  /** The loop over the columns. */
  method ProfileRecords(records: seq<Record>) returns (profile: DatasetProfile)
    ensures profile.rowCount == |records|
    ensures profile.columns.Keys == ColumnNames(records) && profile.columnCount == |ColumnNames(records)|
    ensures forall name :: name in profile.columns <==> exists i :: 0 <= i < |records| && name in records[i]
    ensures forall name :: name in profile.columns ==> profile.columns[name] == ProfileColumn(Column(records, name))
  {
    hide ColumnNames, ProfileColumn, Column;
    var names := ColumnNames(records);
    var columns: map<string, ColumnProfile> := map[];
    var todo := names;
    while todo != {}
      invariant todo <= names && columns.Keys == names - todo
      invariant forall name :: name in columns ==> columns[name] == ProfileColumn(Column(records, name))
      decreases todo
    {
      var name :| name in todo;
      columns := columns[name := ProfileColumn(Column(records, name))];
      todo := todo - {name};
    }
    NamesAre(records);
    profile := DatasetProfile(|records|, |names|, columns);
  }

  // ---------------------------------------------------------------------------------------------
  // Mean between minimum and maximum
  // ---------------------------------------------------------------------------------------------

  lemma {:induction false} SumBounds(xs: seq<real>)
    requires xs != []
    ensures Min(xs) <= Max(xs)
    ensures Min(xs) * |xs| as real <= Sum(xs) <= Max(xs) * |xs| as real
  {
    hide Min, Max, Sum;
    FirstAndRest(xs);
    if |xs| > 1 {
      SumBounds(xs[1..]);
      var n := |xs[1..]| as real;
      OneMoreAbove(Min(xs), xs[0], Min(xs[1..]), n, Sum(xs[1..]));
      OneMoreBelow(Max(xs), xs[0], Max(xs[1..]), n, Sum(xs[1..]));
    }
  }

  lemma FirstAndRest(xs: seq<real>)
    requires xs != []
    ensures |xs| == 1 ==> Min(xs) == xs[0] && Max(xs) == xs[0] && Sum(xs) == xs[0]
    ensures |xs| > 1 ==> Min(xs) <= xs[0] <= Max(xs) && Min(xs) <= Min(xs[1..]) && Max(xs[1..]) <= Max(xs)
    ensures |xs| > 1 ==> Sum(xs) == xs[0] + Sum(xs[1..])
  {
  }

  lemma OneMoreAbove(m: real, x: real, r: real, n: real, sum: real)
    requires m <= x && m <= r && n >= 0.0 && r * n <= sum
    ensures m * (n + 1.0) <= x + sum
  {
    assert (r - m) * n >= 0.0;
  }

  lemma OneMoreBelow(m: real, x: real, r: real, n: real, sum: real)
    requires x <= m && r <= m && n >= 0.0 && sum <= r * n
    ensures x + sum <= m * (n + 1.0)
  {
    assert (m - r) * n >= 0.0;
  }

  /** In every numeric column the mean lies between the minimum and the maximum. */
  lemma MeanIsBetween(values: seq<Value>)
    requires ProfileColumn(values).Numeric()
    ensures var s := ProfileColumn(values).stats.value; s.min <= s.mean <= s.max
  {
    hide Min, Max, Sum, Numbers, NonNull;
    var xs := Numbers(NonNull(values));
    SumBounds(xs);
    Divide(Min(xs), Sum(xs), Max(xs), |xs| as real);
  }

  lemma Divide(a: real, s: real, b: real, n: real)
    requires n > 0.0 && a * n <= s <= b * n
    ensures a <= s / n <= b
  {
    assert (s / n) * n == s;
  }

  // ---------------------------------------------------------------------------------------------
  // Merging
  // ---------------------------------------------------------------------------------------------

  lemma {:induction false} ColumnAppend(a: seq<Record>, b: seq<Record>, name: string)
    ensures Column(a + b, name) == Column(a, name) + Column(b, name)
  {
    if a == [] {
      assert a + b == b;
    } else {
      assert (a + b)[1..] == a[1..] + b;
      ColumnAppend(a[1..], b, name);
    }
  }

  lemma NonNullCons(x: Value, s: seq<Value>)
    ensures NonNull([x] + s) == (if x.Null? then [] else [x]) + NonNull(s)
  {
    assert ([x] + s)[1..] == s;
  }

  lemma {:induction false} NonNullAppend(a: seq<Value>, b: seq<Value>)
    ensures NonNull(a + b) == NonNull(a) + NonNull(b)
  {
    hide NonNull;
    if a == [] {
      NonNullOfNone();
      assert a + b == b;
    } else {
      NonNullAppend(a[1..], b);
      NonNullCons(a[0], a[1..]);
      NonNullCons(a[0], a[1..] + b);
      assert a == [a[0]] + a[1..] && a + b == [a[0]] + (a[1..] + b);
    }
  }

  lemma NonNullOfNone()
    ensures NonNull([]) == []
  {
  }

  lemma NumbersCons(x: Value, s: seq<Value>)
    ensures Numbers([x] + s) == (if x.Number? then [x.amount] else []) + Numbers(s)
  {
    assert ([x] + s)[1..] == s;
  }

  lemma {:induction false} NumbersAppend(a: seq<Value>, b: seq<Value>)
    ensures Numbers(a + b) == Numbers(a) + Numbers(b)
  {
    hide Numbers;
    if a == [] {
      NumbersOfNone();
      assert a + b == b;
    } else {
      NumbersAppend(a[1..], b);
      NumbersCons(a[0], a[1..]);
      NumbersCons(a[0], a[1..] + b);
      assert a == [a[0]] + a[1..] && a + b == [a[0]] + (a[1..] + b);
    }
  }

  lemma NumbersOfNone()
    ensures Numbers([]) == []
  {
  }

  lemma {:induction false} NumbersShorter(values: seq<Value>)
    ensures |Numbers(values)| <= |values|
  {
    if values != [] {
      NumbersShorter(values[1..]);
    }
  }

  lemma {:induction false} FoldAppend(a: seq<real>, b: seq<real>)
    ensures Sum(a + b) == Sum(a) + Sum(b)
    ensures a != [] && b != [] ==> Min(a + b) == (if Min(a) <= Min(b) then Min(a) else Min(b))
    ensures a != [] && b != [] ==> Max(a + b) == (if Max(a) >= Max(b) then Max(a) else Max(b))
  {
    if a == [] {
      assert a + b == b;
    } else {
      assert (a + b)[1..] == a[1..] + b;
      FoldAppend(a[1..], b);
      if |a| == 1 {
        assert a[1..] + b == b;
      }
    }
  }

  // ---------------------------------------------------------------------------------------------
  // Digests: what decides a profile, and adds up over concatenation
  // ---------------------------------------------------------------------------------------------

  datatype Digest = Digest(
    rows: nat,
    filled: nat,
    distinct: set<Value>,
    numbers: nat,
    sum: real,
    range: Option<(real, real)>)

  function DigestOf(values: seq<Value>): Digest {
    var x := NonNull(values);
    var n := Numbers(x);
    Digest(|values|, |x|, Elements(x), |n|, Sum(n), RangeOf(n))
  }

  function RangeOf(xs: seq<real>): Option<(real, real)> { if xs == [] then None else Some((Min(xs), Max(xs))) }

  function Join(d: Digest, e: Digest): Digest {
    Digest(d.rows + e.rows, d.filled + e.filled, d.distinct + e.distinct, d.numbers + e.numbers, d.sum + e.sum,
           JoinRange(d.range, e.range))
  }

  function JoinRange(d: Option<(real, real)>, e: Option<(real, real)>): Option<(real, real)> {
    if d.None? then e
    else if e.None? then d
    else Some((Least(d.value.0, e.value.0), Greatest(d.value.1, e.value.1)))
  }

  predicate Sound(d: Digest) {
    d.numbers <= d.filled <= d.rows && (d.range.None? <==> d.numbers == 0) && (d.numbers == 0 ==> d.sum == 0.0)
  }

  lemma DigestSound(values: seq<Value>)
    ensures Sound(DigestOf(values))
  {
    NonNullShorter(values);
    NumbersShorter(NonNull(values));
  }

  lemma RangeAppend(a: seq<real>, b: seq<real>)
    ensures RangeOf(a + b) == JoinRange(RangeOf(a), RangeOf(b))
  {
    hide Min, Max;
    FoldAppend(a, b);
    assert a == [] ==> a + b == b;
    assert b == [] ==> a + b == a;
  }

  lemma DigestAppend(a: seq<Value>, b: seq<Value>)
    ensures DigestOf(a + b) == Join(DigestOf(a), DigestOf(b))
  {
    hide NonNull, Numbers, Sum, RangeOf, JoinRange, Min, Max;
    NonNullAppend(a, b);
    var x, y := NonNull(a), NonNull(b);
    NumbersAppend(x, y);
    FoldAppend(Numbers(x), Numbers(y));
    RangeAppend(Numbers(x), Numbers(y));
    assert Elements(x + y) == Elements(x) + Elements(y);
  }

  /** The profile a digest stands for. */
  function Render(d: Digest): ColumnProfile
    requires Sound(d)
  {
    ColumnProfile(d.rows - d.filled, |d.distinct|,
      if d.filled > 0 && d.numbers == d.filled
      then Some(Stats(d.range.value.0, d.range.value.1, d.sum / d.numbers as real))
      else None)
  }

  lemma ProfileRendersDigest(values: seq<Value>)
    ensures Sound(DigestOf(values)) && ProfileColumn(values) == Render(DigestOf(values))
  {
    DigestSound(values);
  }

  // ---------------------------------------------------------------------------------------------
  // Merging
  // ---------------------------------------------------------------------------------------------

  /** What two halves' numeric statistics combine to, given how many values stand behind each. */
  function MergeStats(a: Stats, n: nat, b: Stats, m: nat): Stats
    requires n > 0 && m > 0
  {
    Stats(Least(a.min, b.min), Greatest(a.max, b.max), (a.mean * n as real + b.mean * m as real) / (n + m) as real)
  }

  /** The merge of two profiles with `n` and `m` non-null values; the unique count is the caller's to supply. */
  function Merge(a: ColumnProfile, n: nat, b: ColumnProfile, m: nat, unique: nat): ColumnProfile {
    ColumnProfile(a.nullCount + b.nullCount, unique,
      if n == 0 then b.stats
      else if m == 0 then a.stats
      else if a.stats.Some? && b.stats.Some? then Some(MergeStats(a.stats.value, n, b.stats.value, m))
      else None)
  }

  /** Profiling a concatenation is merging the two profiles; a column absent from one half reads there as all
      null.  Only the unique count does not follow from the two, and lies between their maximum and their sum. */
  lemma ProfileOfConcatenation(a: seq<Record>, b: seq<Record>, name: string)
    ensures var p, q := ProfileColumn(Column(a, name)), ProfileColumn(Column(b, name));
      var r := ProfileColumn(Column(a + b, name));
      && p.nullCount <= |a| && q.nullCount <= |b|
      && r == Merge(p, |a| - p.nullCount, q, |b| - q.nullCount, r.uniqueCount)
      && p.uniqueCount <= r.uniqueCount && q.uniqueCount <= r.uniqueCount <= p.uniqueCount + q.uniqueCount
  {
    hide ProfileColumn, DigestOf, Join, Render, Merge, Sound;
    DigestJoin(a, b, name);
    ColumnDigest(a, name);
    ColumnDigest(b, name);
    ColumnDigest(a + b, name);
    RenderJoin(DigestOf(Column(a, name)), DigestOf(Column(b, name)));
  }

  /** The columns of a concatenation are those of the two halves. */
  lemma NamesOfConcatenation(a: seq<Record>, b: seq<Record>)
    ensures ColumnNames(a + b) == ColumnNames(a) + ColumnNames(b)
  {
    forall k ensures k in ColumnNames(a + b) <==> k in ColumnNames(a) || k in ColumnNames(b) {
      assert forall r :: r in a + b <==> r in a || r in b;
    }
  }

  lemma ColumnDigest(records: seq<Record>, name: string)
    ensures var d := DigestOf(Column(records, name));
      && Sound(d) && d.rows == |records| && ProfileColumn(Column(records, name)) == Render(d)
      && Render(d).nullCount == |records| - d.filled
  {
    ColumnLength(records, name);
    ProfileRendersDigest(Column(records, name));
  }

  lemma {:induction false} ColumnLength(records: seq<Record>, name: string)
    ensures |Column(records, name)| == |records|
  {
    if records != [] {
      ColumnLength(records[1..], name);
    }
  }

  lemma RenderJoin(d: Digest, e: Digest)
    requires Sound(d) && Sound(e)
    ensures Sound(Join(d, e))
    ensures Render(d).nullCount == d.rows - d.filled && Render(e).nullCount == e.rows - e.filled
    ensures Render(Join(d, e)) == Merge(Render(d), d.filled, Render(e), e.filled, Render(Join(d, e)).uniqueCount)
    ensures var p, q, r := Render(d).uniqueCount, Render(e).uniqueCount, Render(Join(d, e)).uniqueCount;
      p <= r && q <= r <= p + q
  {
    SubsetSize(d.distinct, d.distinct + e.distinct);
    SubsetSize(e.distinct, d.distinct + e.distinct);
    if d.numbers == d.filled > 0 && e.numbers == e.filled > 0 {
      MeanOfJoin(d.sum, d.numbers, e.sum, e.numbers);
      var p, q := Render(d).stats.value, Render(e).stats.value;
      assert Render(Join(d, e)).stats.value.mean == MergeStats(p, d.filled, q, e.filled).mean;
    }
  }

  lemma MeanOfJoin(a: real, n: nat, b: real, m: nat)
    requires n > 0 && m > 0
    ensures (a + b) / (n + m) as real == (a / n as real * n as real + b / m as real * m as real) / (n + m) as real
  {
    assert a / n as real * n as real == a;
    assert b / m as real * m as real == b;
  }

  /** The profile of one record; with the merge law it decides every profile but for the unique count. */
  lemma OneRecord(r: Record, name: string)
    ensures ProfileColumn(Column([r], name)) ==
      match Get(r, name)
      case Null => ColumnProfile(1, 0, None)
      case Number(_, x) => ColumnProfile(0, 1, Some(Stats(x, x, x)))
      case Other(_) => ColumnProfile(0, 1, None)
  {
    var v := Get(r, name);
    assert [r][1..] == [];
    assert Column([r], name) == [v];
    assert [v][1..] == [];
    assert NonNull([v]) == if v.Null? then [] else [v];
    assert Numbers([v]) == if v.Number? then [v.amount] else [];
    assert Elements([v]) == {v} && Elements<Value>([]) == {};
    if v.Number? {
      assert [v.amount][1..] == [] && Sum([v.amount]) == v.amount;
    }
  }

  /** The unique count is the number of different non-null values in the column. */
  lemma UniqueCount(records: seq<Record>, name: string)
    ensures ProfileColumn(Column(records, name)).uniqueCount ==
      |set r | r in records && !Get(r, name).Null? :: Get(r, name)|
  {
    ColumnMembers(records, name);
    NonNullMembers(Column(records, name));
    assert Elements(NonNull(Column(records, name))) == set r | r in records && !Get(r, name).Null? :: Get(r, name);
  }

  lemma {:induction false} ColumnMembers(records: seq<Record>, name: string)
    ensures forall v :: v in Column(records, name) <==> exists r :: r in records && Get(r, name) == v
  {
    if records != [] {
      ColumnMembers(records[1..], name);
      assert records == [records[0]] + records[1..];
      assert records[0] in records;
    }
  }

  lemma {:induction false} NonNullMembers(values: seq<Value>)
    ensures forall v :: v in NonNull(values) <==> v in values && !v.Null?
  {
    if values != [] {
      NonNullMembers(values[1..]);
    }
  }

  /** A column that no record has is all null. */
  lemma AbsentColumn(records: seq<Record>, name: string)
    requires name !in ColumnNames(records)
    ensures ProfileColumn(Column(records, name)) == ColumnProfile(|records|, 0, None)
  {
    AbsentIsNull(records, name);
  }

  lemma {:induction false} AbsentIsNull(records: seq<Record>, name: string)
    requires name !in ColumnNames(records)
    ensures NonNull(Column(records, name)) == [] && |Column(records, name)| == |records|
  {
    if records != [] {
      assert name !in records[0];
      AbsentIsNull(records[1..], name);
    }
  }

  // ---------------------------------------------------------------------------------------------
  // Row order
  // ---------------------------------------------------------------------------------------------

  /** The order of the rows does not matter: permuted records have the same columns with the same profiles. */
  lemma RowOrderDoesNotMatter(a: seq<Record>, b: seq<Record>, name: string)
    requires multiset(a) == multiset(b)
    ensures ColumnNames(a) == ColumnNames(b)
    ensures ProfileColumn(Column(a, name)) == ProfileColumn(Column(b, name))
  {
    assert forall r :: r in a <==> r in multiset(a);
    assert forall r :: r in b <==> r in multiset(b);
    SameDigest(a, b, name);
    ProfileRendersDigest(Column(a, name));
    ProfileRendersDigest(Column(b, name));
  }

  lemma {:induction false} SameDigest(a: seq<Record>, b: seq<Record>, name: string)
    requires multiset(a) == multiset(b)
    ensures DigestOf(Column(a, name)) == DigestOf(Column(b, name))
    decreases |a|
  {
    hide DigestOf, Join, Column;
    if a == [] {
      assert |multiset(b)| == 0;
    } else {
      var i := FirstElsewhere(a, b);
      SameDigest(a[1..], b[..i] + b[i + 1..], name);
      DigestJoin([a[0]], a[1..], name);
      RowToFront(b[..i], a[0], b[i + 1..], name);
    }
  }

  /** Where the first element of `a` is found in a permutation of `a`. */
  lemma FirstElsewhere<T>(a: seq<T>, b: seq<T>) returns (i: nat)
    requires a != [] && multiset(a) == multiset(b)
    ensures i < |b| && a == [a[0]] + a[1..] && b == b[..i] + [a[0]] + b[i + 1..]
    ensures multiset(a[1..]) == multiset(b[..i] + b[i + 1..])
  {
    assert a[0] in multiset(b);
    i :| 0 <= i < |b| && b[i] == a[0];
    RemoveAt(a, 0);
    RemoveAt(b, i);
    assert a[..0] + a[1..] == a[1..] && a[..0] + [a[0]] == [a[0]];
  }

  lemma RemoveAt<T>(s: seq<T>, i: nat)
    requires i < |s|
    ensures s == s[..i] + [s[i]] + s[i + 1..]
    ensures multiset(s[..i] + s[i + 1..]) == multiset(s) - multiset{s[i]}
  {
    assert s == s[..i] + [s[i]] + s[i + 1..];
  }

  lemma RowToFront(u: seq<Record>, x: Record, v: seq<Record>, name: string)
    ensures DigestOf(Column(u + [x] + v, name)) == Join(DigestOf(Column([x], name)), DigestOf(Column(u + v, name)))
  {
    hide DigestOf, Join, Column;
    DigestJoin(u + [x], v, name);
    DigestJoin(u, [x], name);
    DigestJoin(u, v, name);
    JoinSwaps(DigestOf(Column(u, name)), DigestOf(Column([x], name)), DigestOf(Column(v, name)));
  }

  lemma DigestJoin(a: seq<Record>, b: seq<Record>, name: string)
    ensures DigestOf(Column(a + b, name)) == Join(DigestOf(Column(a, name)), DigestOf(Column(b, name)))
  {
    hide DigestOf, Join, Column;
    ColumnAppend(a, b, name);
    DigestAppend(Column(a, name), Column(b, name));
  }

  lemma JoinSwaps(u: Digest, x: Digest, v: Digest)
    ensures Join(Join(u, x), v) == Join(x, Join(u, v))
  {
  }
}
