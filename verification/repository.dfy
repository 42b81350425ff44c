/**
 * The server's record store (`DataRepository`): an ordered list of records
 * keyed by `id`. Every mutator reports success as a Boolean and keeps ids
 * unique.
 */
module Repository {
  import opened Data
  import opened IntText

  type Store = seq<Record>

  /** No two records of the store share an id. */
  predicate UniqueIds(s: Store) {
    forall i, j :: 0 <= i < j < |s| ==> s[i].id != s[j].id
  }

  /** Some record of the store has this id. */
  predicate HasId(s: Store, id: int32) {
    exists i :: 0 <= i < |s| && s[i].id == id
  }

  /** A store operation's Boolean outcome together with the store it leaves. */
  datatype Mutation = Mutation(ok: bool, store: Store)

  /** IEEE 754 bit patterns of the `Double` values 0.0 to 9.0. */
  const SMALL_DOUBLES: seq<bv64> := [
    0x0000_0000_0000_0000, 0x3FF0_0000_0000_0000, 0x4000_0000_0000_0000,
    0x4008_0000_0000_0000, 0x4010_0000_0000_0000, 0x4014_0000_0000_0000,
    0x4018_0000_0000_0000, 0x401C_0000_0000_0000, 0x4020_0000_0000_0000,
    0x4022_0000_0000_0000]

  /**
   * The ten sample records the store starts with, `Item 0` to `Item 9`.
   * `now` stands for the clock reading each record's default timestamp takes.
   */
  function InitialStore(now: int64): (s: Store)
    ensures |s| == 10 && UniqueIds(s)
    ensures forall i :: 0 <= i < |s| ==>
      s[i].id as int == i && s[i].name == "Item " + Decimal(i) && s[i].value == Float64(SMALL_DOUBLES[i])
    ensures forall i, j :: 0 <= i < j < |s| ==> s[i].id < s[j].id
  {
    seq(10, i requires 0 <= i < 10 => Record(i as int32, "Item " + Decimal(i), Float64(SMALL_DOUBLES[i]), now))
  }

  /** `indexOfFirst { it.id == id }`: the first position holding `id`, or -1. */
  function IndexOfFirst(s: Store, id: int32): (k: int)
    ensures -1 <= k < |s|
    ensures k == -1 <==> !HasId(s, id)
    ensures k >= 0 ==> s[k].id == id && forall j :: 0 <= j < k ==> s[j].id != id
  {
    if |s| == 0 then -1
    else if s[0].id == id then 0
    else
      var k := IndexOfFirst(s[1..], id);
      assert forall j :: 0 <= j < |s[1..]| ==> s[1..][j] == s[j + 1];
      if k == -1 then -1 else k + 1
  }

  /** `getDataById`: the first record with this id, or null. */
  function GetDataById(s: Store, id: int32): (r: Option<Record>)
    ensures r.None? <==> !HasId(s, id)
    ensures r.Some? ==> exists k :: 0 <= k < |s| && s[k] == r.value && r.value.id == id
                                   && forall j :: 0 <= j < k ==> s[j].id != id
  {
    var k := IndexOfFirst(s, id);
    if k == -1 then None else Some(s[k])
  }

  /** `addData`: refuses an id already present, otherwise appends at the end. */
  function AddData(s: Store, r: Record): (m: Mutation)
    ensures m.ok <==> !HasId(s, r.id)
    ensures !m.ok ==> m.store == s
    ensures m.ok ==> |m.store| == |s| + 1 && m.store[..|s|] == s && m.store[|s|] == r
    ensures UniqueIds(s) ==> UniqueIds(m.store)
  {
    if HasId(s, r.id) then Mutation(false, s) else Mutation(true, s + [r])
  }

  /** `updateData`: replaces the first record with the same id, if there is one. */
  function UpdateData(s: Store, r: Record): (m: Mutation)
    ensures m.ok <==> HasId(s, r.id)
    ensures !m.ok ==> m.store == s
    ensures m.ok ==> |m.store| == |s|
                     && exists k :: 0 <= k < |s| && s[k].id == r.id && m.store[k] == r
                                    && (forall j :: 0 <= j < k ==> s[j].id != r.id)
                                    && (forall j :: 0 <= j < |s| && j != k ==> m.store[j] == s[j])
    ensures UniqueIds(s) ==> UniqueIds(m.store)
  {
    var k := IndexOfFirst(s, r.id);
    if k == -1 then Mutation(false, s) else Mutation(true, s[k := r])
  }

  /** `filter { it.id != id }`: the records with another id, in their order. */
  function Without(s: Store, id: int32): (t: Store)
    ensures |t| <= |s|
    ensures forall x :: x in t <==> x in s && x.id != id
  {
    if |s| == 0 then []
    else if s[0].id == id then Without(s[1..], id)
    else [s[0]] + Without(s[1..], id)
  }

  /** `deleteDataById`: removes every record with this id, if there is one. */
  function DeleteDataById(s: Store, id: int32): (m: Mutation)
    ensures m.ok <==> HasId(s, id)
    ensures !m.ok ==> m.store == s
    ensures m.ok ==> !HasId(m.store, id) && |m.store| < |s|
    ensures forall x :: x in m.store <==> x in s && x.id != id
    ensures UniqueIds(s) ==> UniqueIds(m.store)
  {
    if !HasId(s, id) then
      assert Without(s, id) == s by { WithoutAbsent(s, id); }
      Mutation(false, s)
    else
      var k := IndexOfFirst(s, id);
      assert s[k] !in Without(s, id);
      assert |Without(s, id)| < |s| by { WithoutShorter(s, id, k); }
      assert UniqueIds(s) ==> UniqueIds(Without(s, id)) by {
        if UniqueIds(s) { WithoutKeepsUnique(s, id); }
      }
      Mutation(true, Without(s, id))
  }

  lemma {:induction false} WithoutAbsent(s: Store, id: int32)
    requires !HasId(s, id)
    ensures Without(s, id) == s
  {
    if |s| > 0 {
      assert !HasId(s[1..], id) by {
        forall i | 0 <= i < |s[1..]| ensures s[1..][i].id != id {
          assert s[1..][i] == s[i + 1];
        }
      }
      WithoutAbsent(s[1..], id);
    }
  }

  lemma {:induction false} WithoutShorter(s: Store, id: int32, k: nat)
    requires k < |s| && s[k].id == id
    ensures |Without(s, id)| < |s|
  {
    if s[0].id != id {
      assert s[1..][k - 1] == s[k];
      WithoutShorter(s[1..], id, k - 1);
    }
  }

  /** Filtering keeps the relative order: the result is a subsequence. */
  predicate SubsequenceOf(t: Store, s: Store)
    decreases |s|
  {
    if |t| == 0 then true
    else if |s| == 0 then false
    else if t[0] == s[0] then SubsequenceOf(t[1..], s[1..])
    else SubsequenceOf(t, s[1..])
  }

  lemma {:induction false} WithoutKeepsOrder(s: Store, id: int32)
    ensures SubsequenceOf(Without(s, id), s)
  {
    if |s| > 0 {
      WithoutKeepsOrder(s[1..], id);
      if s[0].id != id {
        assert ([s[0]] + Without(s[1..], id))[1..] == Without(s[1..], id);
      }
    }
  }

  /** Deleting keeps the remaining records in their original relative order. */
  lemma DeleteKeepsOrder(s: Store, id: int32)
    ensures SubsequenceOf(DeleteDataById(s, id).store, s)
  {
    WithoutKeepsOrder(s, id);
    if !HasId(s, id) {
      WithoutAbsent(s, id);
    }
  }

  /**
   * In a store with unique ids, deleting by filter is the same as removing
   * the single record at the first matching position.
   */
  lemma {:induction false} DeleteRemovesOnePosition(s: Store, id: int32)
    requires UniqueIds(s) && HasId(s, id)
    ensures var k := IndexOfFirst(s, id);
            DeleteDataById(s, id).store == s[..k] + s[k + 1..]
  {
    var k := IndexOfFirst(s, id);
    WithoutSplit(s, id, k);
  }

  lemma {:induction false} WithoutSplit(s: Store, id: int32, k: nat)
    requires UniqueIds(s) && k < |s| && s[k].id == id
    ensures Without(s, id) == s[..k] + s[k + 1..]
  {
    UniqueTail(s);
    if k == 0 {
      TailLacksHeadId(s);
      WithoutAbsent(s[1..], id);
    } else {
      assert s[0].id != s[k].id;
      assert s[1..][k - 1] == s[k];
      WithoutSplit(s[1..], id, k - 1);
      Splice(s, k);
    }
  }

  /** With unique ids, the id of the first record appears nowhere after it. */
  lemma TailLacksHeadId(s: Store)
    requires UniqueIds(s) && |s| > 0
    ensures !HasId(s[1..], s[0].id)
  {
    forall i | 0 <= i < |s[1..]| ensures s[1..][i].id != s[0].id {
      assert s[1..][i] == s[i + 1];
    }
  }

  /** Removing position `k` of the tail and putting the head back removes position `k`. */
  lemma Splice(s: Store, k: nat)
    requires 0 < k < |s|
    ensures [s[0]] + (s[1..][..k - 1] + s[1..][k..]) == s[..k] + s[k + 1..]
  {
    assert s[1..][..k - 1] == s[1..k] && s[1..][k..] == s[k + 1..];
    assert [s[0]] + s[1..k] == s[..k];
  }

  lemma UniqueTail(s: Store)
    requires UniqueIds(s) && |s| > 0
    ensures UniqueIds(s[1..])
  {
    var tail := s[1..];
    forall i, j | 0 <= i < j < |tail| ensures tail[i].id != tail[j].id {
      assert tail[i] == s[i + 1] && tail[j] == s[j + 1];
    }
  }

  /** `add` followed by `getById` on the same id returns the added record. */
  lemma AddThenGet(s: Store, r: Record)
    requires !HasId(s, r.id)
    ensures GetDataById(AddData(s, r).store, r.id) == Some(r)
  {
    var t := AddData(s, r).store;
    assert IndexOfFirst(t, r.id) == |s|;
  }

  /** The store operations a client can trigger. */
  datatype Op = Add(record: Record) | Update(record: Record) | Delete(id: int32)

  function Apply(s: Store, op: Op): Store {
    match op
    case Add(r) => AddData(s, r).store
    case Update(r) => UpdateData(s, r).store
    case Delete(id) => DeleteDataById(s, id).store
  }

  function ApplyAll(s: Store, ops: seq<Op>): Store
    decreases |ops|
  {
    if |ops| == 0 then s else ApplyAll(Apply(s, ops[0]), ops[1..])
  }

  /** Ids stay unique under any sequence of adds, updates and deletes. */
  lemma {:induction false} UniqueIdsPreserved(s: Store, ops: seq<Op>)
    requires UniqueIds(s)
    ensures UniqueIds(ApplyAll(s, ops))
    decreases |ops|
  {
    if |ops| > 0 {
      UniqueIdsPreserved(Apply(s, ops[0]), ops[1..]);
    }
  }

  lemma {:induction false} WithoutKeepsUnique(s: Store, id: int32)
    requires UniqueIds(s)
    ensures UniqueIds(Without(s, id))
  {
    if |s| > 0 {
      var tail := s[1..];
      UniqueTail(s);
      WithoutKeepsUnique(tail, id);
      if s[0].id != id {
        var w := Without(tail, id);
        forall x | x in w ensures x.id != s[0].id {
          var j :| 0 <= j < |tail| && tail[j] == x;
          assert tail[j] == s[j + 1];
        }
      }
    }
  }

  /** From the ten sample records, no sequence of operations duplicates an id. */
  lemma UniqueIdsFromInitialStore(now: int64, ops: seq<Op>)
    ensures UniqueIds(ApplyAll(InitialStore(now), ops))
  {
    UniqueIdsPreserved(InitialStore(now), ops);
  }
}
