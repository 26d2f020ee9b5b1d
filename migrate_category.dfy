/**
 * The data migration that turns the integer `category` enum of role plays
 * into a reference to a row of a new `categories` table, and back.
 */
module CategoryMigration {
  import opened Wrappers

  /** `CATEGORIES.values`, in the order of the hash: the enum value is the index. */
  const Names: seq<string> := ["Communication", "Team Management", "Conflict Resolution",
                               "Performance Management", "Leadership Development"]

  /** `CATEGORIES[v]`. */
  function NameOf(v: int): (r: Option<string>)
    ensures r.Some? <==> 0 <= v < 5
    ensures r.Some? ==> r.value in Names
  {
    if 0 <= v < |Names| then Some(Names[v]) else None
  }

  /** The five names are distinct. */
  lemma NamesDistinct()
    ensures |Names| == 5
    ensures forall i, j :: 0 <= i < j < |Names| ==> Names[i] != Names[j]
  {
  }

  /** The `categories` table: the row with id `k + 1` holds `table[k]`. */
  type Table = seq<string>

  /** `find_by(name:)`: the id of the first row with that name. */
  function FindId(table: Table, name: string): (r: Option<nat>)
    ensures r.Some? ==> 1 <= r.value <= |table| && table[r.value - 1] == name
    ensures r.Some? ==> forall k :: 0 <= k < r.value - 1 ==> table[k] != name
    ensures r.None? <==> name !in table
  {
    if |table| == 0 then None
    else if table[0] == name then Some(1)
    else match FindId(table[1..], name)
      case None => None
      case Some(id) => Some(id + 1)
  }

  /**
   * `CATEGORIES.invert[name]`: the enum value of a name, if it is one of the
   * five (`invert` keeps the last key of a repeated value; the names are
   * distinct, so the first index is that key).
   */
  function ValueOf(name: Option<string>): (r: Option<int>)
    ensures r.Some? ==> NameOf(r.value) == name
    ensures r.None? ==> name.None? || name.value !in Names
  {
    match name
    case None => None
    case Some(n) =>
      match FindId(Names, n)
      case None => None
      case Some(i) => Some(i - 1)
  }

  /** The name mapping is invertible on the five enum values. */
  lemma ValueOfNameOf(v: int)
    requires 0 <= v < 5
    ensures ValueOf(NameOf(v)) == Some(v)
  {
    NamesDistinct();
    var i := FindId(Names, Names[v]);
    assert i.Some?;
    assert i.value - 1 <= v;
  }

  /** `find_or_create_by!(name:)`. */
  function FindOrCreate(table: Table, name: string): (r: Table)
    ensures name in r && table <= r
    ensures name in table ==> r == table
    ensures |r| <= |table| + 1
  {
    if name in table then table else table + [name]
  }

  /** Seeding `Names[k..]`, one `find_or_create_by!` after another. */
  function SeedFrom(table: Table, k: nat): (r: Table)
    requires k <= |Names|
    ensures table <= r
    ensures forall i :: k <= i < |Names| ==> Names[i] in r
    ensures forall i :: 0 <= i < |r| ==> r[i] in table || r[i] in Names
    decreases |Names| - k
  {
    if k == |Names| then table
    else SeedFrom(FindOrCreate(table, Names[k]), k + 1)
  }

  /** Seeding the five names. */
  function Seed(table: Table): (r: Table)
    ensures forall v :: 0 <= v < 5 ==> Names[v] in r
    ensures table <= r
  {
    SeedFrom(table, 0)
  }

  /** Seeding a table that already holds the names changes nothing. */
  lemma {:induction false} SeedFromPresent(table: Table, k: nat)
    requires k <= |Names|
    requires forall i :: k <= i < |Names| ==> Names[i] in table
    ensures SeedFrom(table, k) == table
    decreases |Names| - k
  {
    if k < |Names| {
      assert FindOrCreate(table, Names[k]) == table;
      SeedFromPresent(table, k + 1);
    }
  }

  /** Seeding is idempotent. */
  lemma SeedIdempotent(table: Table)
    ensures Seed(Seed(table)) == Seed(table)
  {
    SeedFromPresent(Seed(table), 0);
  }

  /** The `category_id` `up` writes for an enum value: none for an unknown value. */
  function BackfillId(table: Table, v: int): (r: Option<nat>)
    ensures r.Some? ==> 0 <= v < 5
  {
    match NameOf(v)
    case None => None
    case Some(name) => FindId(table, name)
  }

  /** `CATEGORIES.values.each { find_or_create_by! }`. */
  method SeedTable(table: Table) returns (t: Table)
    ensures t == Seed(table)
  {
    t := table;
    var k := 0;
    while k < |Names|
      invariant 0 <= k <= |Names|
      invariant SeedFrom(t, k) == SeedFrom(table, 0)
    {
      t := FindOrCreate(t, Names[k]);
      k := k + 1;
    }
  }

  /**
   * The backfill loop of `up` over a seeded table, followed by making the
   * column non-null, which fails (None) when some value got no id.
   */
  method Backfill(values: seq<int>, seeded: Table) returns (result: Option<seq<nat>>)
    requires forall v :: 0 <= v < 5 ==> Names[v] in seeded
    ensures result.Some? <==> forall i :: 0 <= i < |values| ==> 0 <= values[i] < 5
    ensures result.Some? ==> |result.value| == |values|
    ensures result.Some? ==> forall i :: 0 <= i < |values| ==>
      BackfillId(seeded, values[i]) == Some(result.value[i])
  {
    var ids: seq<Option<nat>> := [];
    var n := 0;
    while n < |values|
      invariant 0 <= n <= |values| && |ids| == n
      invariant forall i :: 0 <= i < n ==> ids[i] == BackfillId(seeded, values[i])
    {
      var name := NameOf(values[n]);
      var id: Option<nat> := None;
      if name.Some? {
        id := FindId(seeded, name.value);
      }
      ids := ids + [id];
      n := n + 1;
    }
    var out: seq<nat> := [];
    var k := 0;
    while k < |ids|
      invariant 0 <= k <= |ids| && |out| == k
      invariant forall i :: 0 <= i < k ==> ids[i] == Some(out[i])
    {
      if ids[k].None? {
        assert !(0 <= values[k] < 5);
        return None;
      }
      out := out + [ids[k].value];
      k := k + 1;
    }
    forall i | 0 <= i < |values|
      ensures 0 <= values[i] < 5
    {
      assert ids[i].Some?;
    }
    return Some(out);
  }

  /**
   * `up`: seed the table, then backfill each role play's `category_id`; None
   * when the migration fails because a value is not one of the five.
   */
  method Up(values: seq<int>, table: Table) returns (result: Option<(Table, seq<nat>)>)
    ensures result.Some? <==> forall i :: 0 <= i < |values| ==> 0 <= values[i] < 5
    ensures result.Some? ==> result.value.0 == Seed(table) && |result.value.1| == |values|
    ensures result.Some? ==> forall i :: 0 <= i < |values| ==>
      BackfillId(result.value.0, values[i]) == Some(result.value.1[i])
  {
    var seeded := SeedTable(table);
    var ids := Backfill(values, seeded);
    if ids.None? {
      return None;
    }
    return Some((seeded, ids.value));
  }

  /** The enum value `down` restores for one role play: the default 0 when no name matches. */
  function RestoredValue(table: Table, id: Option<nat>): (r: int)
    ensures 0 <= r < 5
  {
    match id
    case None => 0
    case Some(i) =>
      var name := if 1 <= i <= |table| then Some(table[i - 1]) else None;
      ValueOf(name).GetOr(0)
  }

  /** `down`: restore every role play's enum value from its category's name. */
  method Down(ids: seq<Option<nat>>, table: Table) returns (values: seq<int>)
    ensures |values| == |ids|
    ensures forall i :: 0 <= i < |ids| ==> values[i] == RestoredValue(table, ids[i])
  {
    values := [];
    var n := 0;
    while n < |ids|
      invariant 0 <= n <= |ids| && |values| == n
      invariant forall i :: 0 <= i < n ==> values[i] == RestoredValue(table, ids[i])
    {
      var v := 0;
      if ids[n].Some? {
        var id := ids[n].value;
        var name := if 1 <= id <= |table| then Some(table[id - 1]) else None;
        var inverted := ValueOf(name);
        v := inverted.GetOr(0);
      }
      values := values + [v];
      n := n + 1;
    }
  }

  /** For every enum value 0..4, `down` after `up` restores it, whatever the table held. */
  lemma DownAfterUp(table: Table, v: int)
    requires 0 <= v < 5
    ensures BackfillId(Seed(table), v).Some?
    ensures RestoredValue(Seed(table), BackfillId(Seed(table), v)) == v
  {
    var t := Seed(table);
    var name := Names[v];
    assert NameOf(v) == Some(name);
    assert name in t;
    var id := FindId(t, name);
    assert id.Some? && t[id.value - 1] == name;
    assert BackfillId(t, v) == id;
    ValueOfNameOf(v);
    assert RestoredValue(t, id) == ValueOf(Some(name)).GetOr(0);
  }
}
