/** Per-model usage: the accumulation and the exchange sort of SumByModel in
    internal/repository/usage_repository.go. */
module UsageModels {
  import opened Wrappers
  import opened Tallies
  import opened Sets

  datatype Usage = Usage(cost: real, input: int, output: int, cacheRead: int, cacheCreation: int)

  /** A finished task: its totals, and its usage per model unless that does not decode. */
  datatype DoneRow = DoneRow(total: Usage, models: Option<map<string, Usage>>)

  datatype ModelRow = ModelRow(model: string, tally: Tally)

  const UNKNOWN := "unknown"

  function Entry(u: Usage): Tally {
    Tally(1, u.cost, u.input, u.output, u.cacheRead, u.cacheCreation, 0.0)
  }

  function Named(id: string): string {
    if id == "" then UNKNOWN else id
  }

  /** What a row is made of: its models, or its totals when it names none. */
  function Expanded(row: DoneRow): map<string, Tally> {
    if row.models.None? || row.models.value == map[] then map[UNKNOWN := Entry(row.total)]
    else map id | id in row.models.value :: Entry(row.models.value[id])
  }

  // ---- what the result has to be -------------------------------------------------------

  /** The share of a row that goes under one name. */
  ghost function Share(m: map<string, Tally>, ids: set<string>, name: string): Tally
    requires ids <= m.Keys
  {
    SumOver(m, set id | id in ids && Named(id) == name)
  }

  ghost function ModelTally(rows: seq<DoneRow>, name: string): Tally {
    if rows == [] then ZERO
    else
      var m := Expanded(rows[|rows| - 1]);
      Add(ModelTally(rows[..|rows| - 1], name), Share(m, m.Keys, name))
  }

  ghost predicate Mentions(rows: seq<DoneRow>, name: string) {
    exists i | 0 <= i < |rows| :: exists id | id in Expanded(rows[i]) :: Named(id) == name
  }

  ghost function Total(rows: seq<DoneRow>): Tally {
    if rows == [] then ZERO
    else
      var m := Expanded(rows[|rows| - 1]);
      Add(Total(rows[..|rows| - 1]), SumOver(m, m.Keys))
  }

  function SumRows(rows: seq<ModelRow>): Tally {
    if rows == [] then ZERO else Add(rows[0].tally, SumRows(rows[1..]))
  }

  ghost predicate DistinctModels(rows: seq<ModelRow>) {
    forall i, j | 0 <= i < j < |rows| :: rows[i].model != rows[j].model
  }

  ghost predicate Descending(rows: seq<ModelRow>) {
    forall i, j | 0 <= i < j < |rows| :: rows[i].tally.cost >= rows[j].tally.cost
  }

  /** One row per mentioned model, with that model's sum, by descending cost. */
  ghost predicate ByModel(rows: seq<DoneRow>, result: seq<ModelRow>) {
    && DistinctModels(result) && Descending(result)
    && (forall r | r in result :: Mentions(rows, r.model) && r.tally == ModelTally(rows, r.model))
    && (forall name | Mentions(rows, name) :: exists r :: r in result && r.model == name)
  }

  // ---- sums and orders of result rows ------------------------------------------------------

  lemma {:induction false} SumRowsAppend(a: seq<ModelRow>, b: seq<ModelRow>)
    ensures SumRows(a + b) == Add(SumRows(a), SumRows(b))
  {
    hide Add;
    if a == [] {
      assert a + b == b;
      AddLaws(SumRows(b), ZERO, ZERO);
    } else {
      assert (a + b)[1..] == a[1..] + b;
      SumRowsAppend(a[1..], b);
      AddLaws(a[0].tally, SumRows(a[1..]), SumRows(b));
    }
  }

  lemma {:induction false} SumRowsPermuted(a: seq<ModelRow>, b: seq<ModelRow>)
    requires multiset(a) == multiset(b)
    ensures SumRows(a) == SumRows(b)
  {
    hide Add;
    if a == [] {
      assert |b| == |multiset(b)| == 0;
    } else {
      var i := TakenOut(a, b);
      var rest := b[..i] + b[i + 1..];
      SumRowsPermuted(a[1..], rest);
      SumRowsAppend(b[..i], b[i..]);
      SumRowsAppend(b[..i], b[i + 1..]);
      assert b == b[..i] + b[i..] && b[i..][1..] == b[i + 1..];
      AddLaws(SumRows(b[..i]), b[i].tally, SumRows(b[i + 1..]));
      AddLaws(b[i].tally, SumRows(b[..i]), SumRows(b[i + 1..]));
    }
  }

  lemma TakenOut(a: seq<ModelRow>, b: seq<ModelRow>) returns (i: nat)
    requires a != [] && multiset(a) == multiset(b)
    ensures i < |b| && b[i] == a[0] && multiset(a[1..]) == multiset(b[..i] + b[i + 1..])
  {
    i := PlaceOf(a, b);
    WithoutFirst(a);
    WithoutOne(b, i);
  }

  lemma PlaceOf(a: seq<ModelRow>, b: seq<ModelRow>) returns (i: nat)
    requires a != [] && multiset(a) == multiset(b)
    ensures i < |b| && b[i] == a[0]
  {
    assert a[0] in multiset(a);
    i :| 0 <= i < |b| && b[i] == a[0];
  }

  lemma WithoutFirst(rows: seq<ModelRow>)
    requires rows != []
    ensures multiset(rows[1..]) == multiset(rows) - multiset{rows[0]}
  {
    assert rows == [rows[0]] + rows[1..];
  }

  lemma WithoutOne(rows: seq<ModelRow>, i: nat)
    requires i < |rows|
    ensures multiset(rows[..i] + rows[i + 1..]) == multiset(rows) - multiset{rows[i]}
  {
    assert rows == rows[..i] + [rows[i]] + rows[i + 1..];
  }

  lemma {:induction false} ElementsCount(rows: seq<ModelRow>)
    requires DistinctModels(rows)
    ensures |set r | r in rows| == |rows|
  {
    var all := set r | r in rows;
    if rows == [] {
      assert all == {};
    } else {
      var n := |rows| - 1;
      ElementsCount(rows[..n]);
      assert all == (set r | r in rows[..n]) + {rows[n]};
    }
  }

  /** Whatever order the maps were gone through in, the result has the same rows, and
      the same cost at every position: only ties may change places. */
  lemma OrderIndependent(rows: seq<DoneRow>, a: seq<ModelRow>, b: seq<ModelRow>)
    requires ByModel(rows, a) && ByModel(rows, b)
    ensures |a| == |b| && forall r :: r in a <==> r in b
    ensures forall i | 0 <= i < |a| :: a[i].tally.cost == b[i].tally.cost
  {
    hide Mentions, ModelTally;
    SameRows(rows, a, b);
    SameRows(rows, b, a);
    ElementsCount(a);
    ElementsCount(b);
    assert (set r | r in a) == set r | r in b;
    forall i | 0 <= i < |a|
      ensures a[i].tally.cost == b[i].tally.cost
    {
      NoCheaper(a, b, i);
      NoCheaper(b, a, i);
    }
  }

  lemma SameRows(rows: seq<DoneRow>, a: seq<ModelRow>, b: seq<ModelRow>)
    requires ByModel(rows, a) && ByModel(rows, b)
    ensures forall r | r in a :: r in b
  {
    hide Mentions, ModelTally;
    forall r | r in a
      ensures r in b
    {
      var other :| other in b && other.model == r.model;
    }
  }

  /** Among the same rows in descending order, i + 1 rows cannot fit before position i. */
  lemma NoCheaper(a: seq<ModelRow>, b: seq<ModelRow>, i: nat)
    requires DistinctModels(a) && DistinctModels(b) && Descending(a) && Descending(b)
    requires i < |a| && |a| == |b| && forall r | r in a :: r in b
    ensures a[i].tally.cost <= b[i].tally.cost
  {
    if a[i].tally.cost > b[i].tally.cost {
      var first, before := a[..i + 1], b[..i];
      var top := set r | r in first;
      forall r | r in top
        ensures r in before
      {
        assert r in a;
        var k :| 0 <= k < |b| && b[k] == r;
        assert r.tally.cost >= a[i].tally.cost;
        assert k < i;
      }
      ElementsCount(first);
      ElementsCount(before);
      SubsetSize(top, set r | r in before);
    }
  }

  // ---- the exchange sort -----------------------------------------------------------------------

  /** The first i rows are in their final places. */
  ghost predicate Placed(rows: seq<ModelRow>, i: int) {
    forall p, q | 0 <= p < i && p < q < |rows| :: rows[p].tally.cost >= rows[q].tally.cost
  }

  /** Row i is the dearest of the rows from i up to j. */
  ghost predicate Dearest(rows: seq<ModelRow>, i: int, j: int) {
    0 <= i < j <= |rows| && forall q | i < q < j :: rows[i].tally.cost >= rows[q].tally.cost
  }

  lemma Exchange(rows: seq<ModelRow>, i: int, j: int)
    requires Placed(rows, i) && Dearest(rows, i, j) && j < |rows|
    ensures rows[j].tally.cost <= rows[i].tally.cost ==> Dearest(rows, i, j + 1)
    ensures var after := rows[i := rows[j]][j := rows[i]];
            multiset(after) == multiset(rows) && Placed(after, i)
            && (rows[j].tally.cost > rows[i].tally.cost ==> Dearest(after, i, j + 1))
  {
    hide Placed;
    StillPlaced(rows, i, j);
  }

  lemma StillPlaced(rows: seq<ModelRow>, i: int, j: int)
    requires Placed(rows, i) && 0 <= i < j < |rows|
    ensures Placed(rows[i := rows[j]][j := rows[i]], i)
  {
    var after := rows[i := rows[j]][j := rows[i]];
    forall p, q | 0 <= p < i && p < q < |after|
      ensures after[p].tally.cost >= after[q].tally.cost
    {
      assert after[p] == rows[p];
      var was := if q == i then j else if q == j then i else q;
      assert after[q] == rows[was];
    }
  }

  method Swap(result: array<ModelRow>, i: nat, j: nat)
    requires i < j < result.Length
    modifies result
    ensures result[..] == old(result[..])[i := old(result[j])][j := old(result[i])]
  {
    result[i], result[j] := result[j], result[i];
  }

  method SortByCost(result: array<ModelRow>)
    modifies result
    ensures multiset(result[..]) == old(multiset(result[..]))
    ensures Descending(result[..])
  {
    hide Placed, Dearest;
    var n := result.Length;
    var i := 0;
    assert Placed(result[..], 0) by { NonePlaced(result[..]); }
    while i < n - 1
      invariant 0 <= i && (n > 0 ==> i <= n - 1)
      invariant multiset(result[..]) == old(multiset(result[..]))
      invariant Placed(result[..], i)
    {
      var j := i + 1;
      assert Dearest(result[..], i, j) by { AloneIsDearest(result[..], i); }
      while j < n
        invariant i < j <= n
        invariant multiset(result[..]) == old(multiset(result[..]))
        invariant Placed(result[..], i) && Dearest(result[..], i, j)
      {
        ghost var rows := result[..];
        Exchange(rows, i, j);
        if result[j].tally.cost > result[i].tally.cost {
          Swap(result, i, j);
        }
        j := j + 1;
      }
      OneMorePlaced(result[..], i);
      i := i + 1;
    }
    AllPlaced(result[..], i);
  }

  lemma NonePlaced(rows: seq<ModelRow>)
    ensures Placed(rows, 0)
  {
  }

  lemma AloneIsDearest(rows: seq<ModelRow>, i: int)
    requires 0 <= i < |rows|
    ensures Dearest(rows, i, i + 1)
  {
  }

  lemma OneMorePlaced(rows: seq<ModelRow>, i: int)
    requires Placed(rows, i) && Dearest(rows, i, |rows|)
    ensures Placed(rows, i + 1)
  {
  }

  lemma AllPlaced(rows: seq<ModelRow>, i: int)
    requires Placed(rows, i) && i >= |rows| - 1
    ensures Descending(rows)
  {
  }

  // ---- the accumulation --------------------------------------------------------------------------

  function Got(aggregated: map<string, Tally>, name: string): Tally {
    if name in aggregated then aggregated[name] else ZERO
  }

  /** What the accumulators hold once some models of the last row are done. */
  ghost predicate Holds(aggregated: map<string, Tally>, rows: seq<DoneRow>, m: map<string, Tally>, done: set<string>) {
    && done <= m.Keys
    && (forall name :: Got(aggregated, name) == Add(ModelTally(rows, name), Share(m, done, name)))
    && (forall name :: name in aggregated <==> Mentions(rows, name) || exists id | id in done :: Named(id) == name)
    && SumOver(aggregated, aggregated.Keys) == Add(Total(rows), SumOver(m, done))
  }

  lemma HoldsStep(aggregated: map<string, Tally>, rows: seq<DoneRow>, m: map<string, Tally>, done: set<string>, id: string)
    requires Holds(aggregated, rows, m, done) && id in m && id !in done
    ensures Holds(aggregated[Named(id) := Add(Got(aggregated, Named(id)), m[id])], rows, m, done + {id})
  {
    hide Add, ModelTally, Mentions, Total;
    var key := Named(id);
    var after := aggregated[key := Add(Got(aggregated, key), m[id])];
    SumOverGrows(aggregated, key, m[id]);
    SumOverTake(m, done + {id}, id);
    assert done + {id} - {id} == done;
    AddLaws(Total(rows), SumOver(m, done), m[id]);
    AddLaws(SumOver(m, done), m[id], ZERO);
    forall name
      ensures Got(after, name) == Add(ModelTally(rows, name), Share(m, done + {id}, name))
    {
      ShareStep(m, done, id, name);
      AddLaws(ModelTally(rows, name), Share(m, done, name), m[id]);
    }
    forall name
      ensures name in after <==> Mentions(rows, name) || exists x | x in done + {id} :: Named(x) == name
    {
      if name == key {
        assert id in done + {id};
      }
    }
  }

  lemma ShareStep(m: map<string, Tally>, done: set<string>, id: string, name: string)
    requires done <= m.Keys && id in m && id !in done
    ensures Share(m, done + {id}, name) == if Named(id) == name then Add(Share(m, done, name), m[id]) else Share(m, done, name)
  {
    hide Add;
    var ids := set x | x in done && Named(x) == name;
    var more := set x | x in done + {id} && Named(x) == name;
    if Named(id) == name {
      assert more == ids + {id};
      SumOverTake(m, more, id);
      assert more - {id} == ids;
      AddLaws(SumOver(m, ids), m[id], ZERO);
    } else {
      assert more == ids;
    }
  }

  lemma NextRow(aggregated: map<string, Tally>, rows: seq<DoneRow>, m: map<string, Tally>, i: nat)
    requires i < |rows| && m == Expanded(rows[i]) && Holds(aggregated, rows[..i], m, m.Keys)
    ensures Holds(aggregated, rows[..i + 1], map[], {})
  {
    hide Add, Share, SumOver, Expanded;
    var longer := rows[..i + 1];
    assert longer[..i] == rows[..i] && longer[i] == rows[i];
    forall name
      ensures Got(aggregated, name) == Add(ModelTally(longer, name), Share(map[], {}, name))
    {
      NoShare(name);
      AddLaws(ModelTally(longer, name), ZERO, ZERO);
    }
    AddLaws(Total(longer), ZERO, ZERO);
    NoShare("");
    forall name
      ensures name in aggregated <==> Mentions(longer, name)
    {
      MentionsStep(rows, i, name);
    }
  }

  lemma NoShare(name: string)
    ensures Share(map[], {}, name) == ZERO == SumOver(map[], {})
  {
    assert (set id | id in {} && Named(id) == name) == {};
  }

  lemma MentionsStep(rows: seq<DoneRow>, i: nat, name: string)
    requires i < |rows|
    ensures Mentions(rows[..i + 1], name) <==> Mentions(rows[..i], name) || exists id | id in Expanded(rows[i]) :: Named(id) == name
  {
    hide Expanded;
    if Mentions(rows[..i + 1], name) {
      var k :| 0 <= k < i + 1 && exists id | id in Expanded(rows[..i + 1][k]) :: Named(id) == name;
      assert k < i ==> rows[..i][k] == rows[..i + 1][k];
    }
    if Mentions(rows[..i], name) {
      var k :| 0 <= k < i && exists id | id in Expanded(rows[..i][k]) :: Named(id) == name;
      assert rows[..i + 1][k] == rows[..i][k];
    }
    assert rows[..i + 1][i] == rows[i];
  }

  lemma StartRow(aggregated: map<string, Tally>, rows: seq<DoneRow>, m: map<string, Tally>)
    requires Holds(aggregated, rows, map[], {})
    ensures Holds(aggregated, rows, m, {})
  {
    hide Add, ModelTally, Mentions, Total;
    forall name
      ensures Share(m, {}, name) == Share(map[], {}, name)
    {
      assert (set id | id in {} && Named(id) == name) == {};
    }
  }

  // ---- SumByModel ----------------------------------------------------------------------------------

  /** The accumulators after all rows. */
  method Accumulate(rows: seq<DoneRow>) returns (aggregated: map<string, Tally>)
    ensures forall name :: name in aggregated <==> Mentions(rows, name)
    ensures forall name | name in aggregated :: aggregated[name] == ModelTally(rows, name)
    ensures SumOver(aggregated, aggregated.Keys) == Total(rows)
  {
    hide Holds, Add, Mentions;
    aggregated := map[];
    assert Holds(aggregated, rows[..0], map[], {}) by { NothingHeld(); }
    for i := 0 to |rows|
      invariant Holds(aggregated, rows[..i], map[], {})
    {
      var m := Expanded(rows[i]);
      var pending := m.Keys;
      StartRow(aggregated, rows[..i], m);
      assert m.Keys - pending == {};
      while pending != {}
        invariant pending <= m.Keys && Holds(aggregated, rows[..i], m, m.Keys - pending)
        decreases pending
      {
        var id :| id in pending;
        var key := Named(id);
        HoldsStep(aggregated, rows[..i], m, m.Keys - pending, id);
        aggregated := aggregated[key := Add(Got(aggregated, key), m[id])];
        assert m.Keys - (pending - {id}) == m.Keys - pending + {id};
        pending := pending - {id};
      }
      assert m.Keys - pending == m.Keys;
      NextRow(aggregated, rows, m, i);
    }
    assert rows[..|rows|] == rows;
    AllHeld(aggregated, rows);
  }

  lemma NothingHeld()
    ensures Holds(map[], [], map[], {})
  {
    hide Share, SumOver, Expanded, Add;
    AddLaws(ZERO, ZERO, ZERO);
    var none: map<string, Tally> := map[];
    assert none.Keys == {};
    forall name
      ensures Share(map[], {}, name) == ZERO
    {
      NoShare(name);
    }
    NoShare("");
  }

  lemma AllHeld(aggregated: map<string, Tally>, rows: seq<DoneRow>)
    requires Holds(aggregated, rows, map[], {})
    ensures forall name :: name in aggregated <==> Mentions(rows, name)
    ensures forall name | name in aggregated :: aggregated[name] == ModelTally(rows, name)
    ensures SumOver(aggregated, aggregated.Keys) == Total(rows)
  {
    hide Add, Mentions, Total, ModelTally;
    forall name | name in aggregated
      ensures aggregated[name] == ModelTally(rows, name)
    {
      NoShare(name);
      AddLaws(ModelTally(rows, name), ZERO, ZERO);
      assert Got(aggregated, name) == aggregated[name];
    }
    NoShare("");
    AddLaws(Total(rows), ZERO, ZERO);
  }

  /** The accumulators as rows, in whatever order the map is gone through. */
  method Listed(aggregated: map<string, Tally>) returns (result: seq<ModelRow>)
    ensures DistinctModels(result)
    ensures forall r | r in result :: r.model in aggregated && r.tally == aggregated[r.model]
    ensures forall name | name in aggregated :: ModelRow(name, aggregated[name]) in result
    ensures SumRows(result) == SumOver(aggregated, aggregated.Keys)
  {
    hide Add;
    result := [];
    var pending := aggregated.Keys;
    AddLaws(SumOver(aggregated, pending), ZERO, ZERO);
    while pending != {}
      invariant pending <= aggregated.Keys && DistinctModels(result)
      invariant forall r | r in result :: r.model in aggregated && r.model !in pending && r.tally == aggregated[r.model]
      invariant forall name | name in aggregated && name !in pending :: ModelRow(name, aggregated[name]) in result
      invariant Add(SumRows(result), SumOver(aggregated, pending)) == SumOver(aggregated, aggregated.Keys)
      decreases pending
    {
      var name :| name in pending;
      var row := ModelRow(name, aggregated[name]);
      SumOverTake(aggregated, pending, name);
      SumRowsAppend(result, [row]);
      assert [row][1..] == [];
      AddLaws(row.tally, ZERO, ZERO);
      AddLaws(SumRows(result), row.tally, SumOver(aggregated, pending - {name}));
      result := result + [row];
      pending := pending - {name};
    }
    AddLaws(SumRows(result), ZERO, ZERO);
  }

  /** Per-model sums by descending cost; they add up to everything the rows hold. */
  method SumByModel(rows: seq<DoneRow>) returns (result: seq<ModelRow>)
    ensures ByModel(rows, result)
    ensures SumRows(result) == Total(rows)
  {
    hide Mentions, ModelTally, Total, SumRows, SumOver, Descending;
    var aggregated := Accumulate(rows);
    var listed := Listed(aggregated);
    var sorted := new ModelRow[|listed|](i requires 0 <= i < |listed| => listed[i]);
    assert sorted[..] == listed;
    SortByCost(sorted);
    result := sorted[..];
    SumRowsPermuted(result, listed);
    DistinctPermuted(listed, result);
    forall r
      ensures r in result <==> r in listed
    {
      assert r in multiset(result) <==> r in multiset(listed);
    }
  }

  lemma DistinctPermuted(a: seq<ModelRow>, b: seq<ModelRow>)
    requires DistinctModels(a) && multiset(a) == multiset(b)
    ensures DistinctModels(b)
  {
    forall i, j | 0 <= i < j < |b|
      ensures b[i].model != b[j].model
    {
      assert b[i] in multiset(a) && b[j] in multiset(a);
      AtMostOnce(a, b[i]);
      if b[i] == b[j] {
        Twice(b, i, j);
      }
    }
  }

  lemma Twice(rows: seq<ModelRow>, i: nat, j: nat)
    requires i < j < |rows| && rows[i] == rows[j]
    ensures multiset(rows)[rows[i]] >= 2
  {
    assert rows == rows[..i] + [rows[i]] + rows[i + 1..j] + [rows[j]] + rows[j + 1..];
  }

  lemma {:induction false} AtMostOnce(rows: seq<ModelRow>, r: ModelRow)
    requires DistinctModels(rows)
    ensures multiset(rows)[r] <= 1
  {
    if rows != [] {
      var n := |rows| - 1;
      AtMostOnce(rows[..n], r);
      assert rows == rows[..n] + [rows[n]];
      if rows[n] == r {
        assert r !in rows[..n];
      }
    }
  }

  // ---- the same, field by field over the rows' own fields ------------------------------

  function One(u: Usage): real { 1.0 }
  function CostOf(u: Usage): real { u.cost }
  function InputOf(u: Usage): real { u.input as real }
  function OutputOf(u: Usage): real { u.output as real }
  function CacheReadOf(u: Usage): real { u.cacheRead as real }
  function CacheCreationOf(u: Usage): real { u.cacheCreation as real }

  ghost function SetSum(models: map<string, Usage>, ids: set<string>, f: Usage -> real): real
    requires ids <= models.Keys
    decreases |ids|
  {
    if ids == {} then 0.0
    else
      var id :| id in ids;
      f(models[id]) + SetSum(models, ids - {id}, f)
  }

  /** The models that go under a name: the one so called, and for "unknown" also the one
      without a name. */
  ghost function IdsOf(models: map<string, Usage>, name: string): set<string> {
    set id | id in models && ((id != "" && id == name) || (id == "" && name == "unknown"))
  }

  /** A field summed over what the rows hold under one name: a row without models counts
      its totals as unknown, and so does a model without a name. */
  ghost function FieldSum(rows: seq<DoneRow>, name: string, f: Usage -> real): real {
    if rows == [] then 0.0
    else
      var row := rows[|rows| - 1];
      FieldSum(rows[..|rows| - 1], name, f)
      + if row.models.None? || row.models.value == map[] then (if name == "unknown" then f(row.total) else 0.0)
        else SetSum(row.models.value, IdsOf(row.models.value, name), f)
  }

  /** f of a usage is g of the entry it makes, and g adds up. */
  ghost predicate Reads(f: Usage -> real, g: Tally -> real) {
    && (forall u :: g(Entry(u)) == f(u)) && g(ZERO) == 0.0
    && (forall a, b :: g(Add(a, b)) == g(a) + g(b))
  }

  lemma {:induction false} SetSumReads(models: map<string, Usage>, m: map<string, Tally>, ids: set<string>, f: Usage -> real, g: Tally -> real)
    requires ids <= models.Keys && ids <= m.Keys && (forall id | id in ids :: m[id] == Entry(models[id])) && Reads(f, g)
    ensures g(SumOver(m, ids)) == SetSum(models, ids, f)
    decreases |ids|
  {
    hide Add, Entry;
    if ids != {} {
      var id :| id in ids && SetSum(models, ids, f) == f(models[id]) + SetSum(models, ids - {id}, f);
      SumOverTake(m, ids, id);
      SetSumReads(models, m, ids - {id}, f, g);
    }
  }

  lemma ShareReads(row: DoneRow, name: string, f: Usage -> real, g: Tally -> real)
    requires Reads(f, g)
    ensures var m := Expanded(row);
            g(Share(m, m.Keys, name)) ==
              if row.models.None? || row.models.value == map[] then (if name == "unknown" then f(row.total) else 0.0)
              else SetSum(row.models.value, IdsOf(row.models.value, name), f)
  {
    hide Add, Entry, SetSum;
    var m := Expanded(row);
    var ids := set id | id in m.Keys && Named(id) == name;
    if row.models.None? || row.models.value == map[] {
      if name == UNKNOWN {
        assert ids == {UNKNOWN};
        SumOverTake(m, ids, UNKNOWN);
        assert ids - {UNKNOWN} == {};
      } else {
        assert ids == {};
      }
    } else {
      assert ids == IdsOf(row.models.value, name);
      SetSumReads(row.models.value, m, ids, f, g);
    }
  }

  lemma {:induction false} ModelReads(rows: seq<DoneRow>, name: string, f: Usage -> real, g: Tally -> real)
    requires Reads(f, g)
    ensures g(ModelTally(rows, name)) == FieldSum(rows, name, f)
  {
    hide Add, Entry, SetSum, Share;
    if rows != [] {
      ModelReads(rows[..|rows| - 1], name, f, g);
      ShareReads(rows[|rows| - 1], name, f, g);
    }
  }

  ghost function EverySum(rows: seq<DoneRow>, f: Usage -> real): real {
    if rows == [] then 0.0
    else
      var row := rows[|rows| - 1];
      EverySum(rows[..|rows| - 1], f)
      + if row.models.None? || row.models.value == map[] then f(row.total)
        else SetSum(row.models.value, row.models.value.Keys, f)
  }

  /** Everything the rows hold, read field by field. */
  lemma {:induction false} TotalReads(rows: seq<DoneRow>, f: Usage -> real, g: Tally -> real)
    requires Reads(f, g)
    ensures g(Total(rows)) == EverySum(rows, f)
  {
    hide Add, Entry, SetSum;
    if rows != [] {
      TotalReads(rows[..|rows| - 1], f, g);
      var row := rows[|rows| - 1];
      var m := Expanded(row);
      if row.models.None? || row.models.value == map[] {
        SumOverTake(m, m.Keys, UNKNOWN);
        assert m.Keys - {UNKNOWN} == {};
      } else {
        assert m.Keys == row.models.value.Keys;
        SetSumReads(row.models.value, m, m.Keys, f, g);
      }
    }
  }

  /** A model is in the result when some row uses it; "unknown" also stands for rows
      without models and for models without a name. */
  lemma MentionsMeans(rows: seq<DoneRow>, name: string)
    ensures Mentions(rows, name) <==>
            exists i | 0 <= i < |rows| ::
              if rows[i].models.None? || rows[i].models.value == map[] then name == "unknown"
              else (name != "" && name in rows[i].models.value) || (name == "unknown" && "" in rows[i].models.value)
  {
    forall i | 0 <= i < |rows|
      ensures (exists id | id in Expanded(rows[i]) :: Named(id) == name) <==>
              if rows[i].models.None? || rows[i].models.value == map[] then name == "unknown"
              else (name != "" && name in rows[i].models.value) || (name == "unknown" && "" in rows[i].models.value)
    {
      var m := Expanded(rows[i]);
      if rows[i].models.None? || rows[i].models.value == map[] {
        assert UNKNOWN in m && Named(UNKNOWN) == UNKNOWN;
      } else {
        assert "" in m ==> Named("") == UNKNOWN;
        assert name in m ==> Named(name) == if name == "" then UNKNOWN else name;
      }
    }
  }

  /** Every field of a result row is that field summed over the rows. */
  lemma ResultFields(rows: seq<DoneRow>, result: seq<ModelRow>, r: ModelRow)
    requires ByModel(rows, result) && r in result
    ensures r.tally.tasks as real == FieldSum(rows, r.model, One)
    ensures r.tally.cost == FieldSum(rows, r.model, CostOf)
    ensures r.tally.input as real == FieldSum(rows, r.model, InputOf)
    ensures r.tally.output as real == FieldSum(rows, r.model, OutputOf)
    ensures r.tally.cacheRead as real == FieldSum(rows, r.model, CacheReadOf)
    ensures r.tally.cacheCreation as real == FieldSum(rows, r.model, CacheCreationOf)
  {
    hide ModelTally, FieldSum, Mentions;
    ModelReads(rows, r.model, One, (t: Tally) => t.tasks as real);
    ModelReads(rows, r.model, CostOf, (t: Tally) => t.cost);
    ModelReads(rows, r.model, InputOf, (t: Tally) => t.input as real);
    ModelReads(rows, r.model, OutputOf, (t: Tally) => t.output as real);
    ModelReads(rows, r.model, CacheReadOf, (t: Tally) => t.cacheRead as real);
    ModelReads(rows, r.model, CacheCreationOf, (t: Tally) => t.cacheCreation as real);
  }
}
