/** js/block-registry.js: a `Map` from the `"x,y,z"` key to the block data
    object. A JS Map keeps its keys in first-insertion order (setting an
    existing key keeps its place), so the registry is a sequence of entries
    with distinct keys; `getAllBlocks` lists the values in that order. */
module BlockRegistry {
  import opened Wrappers
  import opened KeyCodec

  /** The block data object. Meshes and containers are Three.js objects and
      appear as opaque handles. */
  datatype Block = Block(
    x: int, y: int, z: int,
    kind: string,
    mesh: nat,
    isInstanced: bool,
    instanceIndex: Option<int>,
    container: Option<nat>)

  datatype Entry = Entry(key: string, block: Block)

  type Registry = seq<Entry>

  function PosOf(b: Block): Pos
  {
    Pos(b.x, b.y, b.z)
  }

  /** No key occurs twice. */
  predicate DistinctKeys(r: Registry)
  {
    forall i, j :: 0 <= i < j < |r| ==> r[i].key != r[j].key
  }

  /** Every entry sits under its own block's key. */
  predicate KeysMatch(r: Registry)
  {
    forall i :: 0 <= i < |r| ==> r[i].key == Key(PosOf(r[i].block))
  }

  /** What the module keeps true. */
  predicate Valid(r: Registry)
  {
    KeysMatch(r) && DistinctKeys(r)
  }

  /** The place of key k in the registry, if any. */
  function Find(r: Registry, k: string): (i: Option<nat>)
    ensures i.Some? ==> i.value < |r| && r[i.value].key == k
    ensures i.None? ==> forall j :: 0 <= j < |r| ==> r[j].key != k
  {
    if |r| == 0 then None
    else if r[|r| - 1].key == k then Some(|r| - 1)
    else Find(r[..|r| - 1], k)
  }

  /** `Map.prototype.get` on a key string. */
  function Lookup(r: Registry, k: string): Option<Block>
  {
    match Find(r, k)
    case Some(i) => Some(r[i].block)
    case None => None
  }

  /** `Map.prototype.set`: in place when the key is present, at the end
      otherwise. */
  function Put(r: Registry, k: string, b: Block): Registry
  {
    match Find(r, k)
    case Some(i) => r[i := Entry(k, b)]
    case None => r + [Entry(k, b)]
  }

  /** The registry without its i-th entry; the later entries move down by
      one. */
  function Without(r: Registry, i: nat): (s: Registry)
    requires i < |r|
    ensures |s| == |r| - 1
    ensures forall a :: 0 <= a < i ==> s[a] == r[a]
    ensures forall a :: i <= a < |s| ==> s[a] == r[a + 1]
  {
    r[..i] + r[i + 1..]
  }

  /** `Map.prototype.delete`: the boolean says whether the key was there. */
  function Delete(r: Registry, k: string): (Registry, bool)
  {
    match Find(r, k)
    case Some(i) => (Without(r, i), true)
    case None => (r, false)
  }

  /** `registerBlock`: set the record under its position's key. */
  function Register(r: Registry, b: Block): Registry
  {
    Put(r, Key(PosOf(b)), b)
  }

  /** `getBlock`: the record at a position, or null (None). */
  function Get(r: Registry, p: Pos): Option<Block>
  {
    Lookup(r, Key(p))
  }

  /** `removeBlock`. */
  function Remove(r: Registry, p: Pos): (Registry, bool)
  {
    Delete(r, Key(p))
  }

  /** `clearRegistry`. */
  function Clear(r: Registry): Registry
  {
    []
  }

  /** `getAllBlocks`: the records in insertion order. */
  function AllBlocks(r: Registry): (bs: seq<Block>)
    ensures |bs| == |r|
    ensures forall i :: 0 <= i < |r| ==> bs[i] == r[i].block
  {
    if |r| == 0 then [] else AllBlocks(r[..|r| - 1]) + [r[|r| - 1].block]
  }

  /** `getBlockCount`: the map's size. */
  function Count(r: Registry): nat
  {
    |r|
  }

  /** The registered positions. */
  function Positions(r: Registry): set<Pos>
  {
    set i | 0 <= i < |r| :: PosOf(r[i].block)
  }

  // ---------------------------------------------------------------------

  /** With distinct keys, an entry's index is where `Find` stops. */
  lemma FindAt(r: Registry, k: string, i: nat)
    requires DistinctKeys(r) && i < |r| && r[i].key == k
    ensures Find(r, k) == Some(i)
  {
  }

  /** The map laws of `set`: the new value is found under its key, every
      other key answers as before, keys stay distinct, and the size grows by
      one exactly when the key was absent. */
  lemma PutLaws(r: Registry, k: string, b: Block, k2: string)
    requires DistinctKeys(r)
    ensures DistinctKeys(Put(r, k, b))
    ensures Lookup(Put(r, k, b), k) == Some(b)
    ensures k2 != k ==> Lookup(Put(r, k, b), k2) == Lookup(r, k2)
    ensures |Put(r, k, b)| == |r| + (if Lookup(r, k).Some? then 0 else 1)
  {
    var r' := Put(r, k, b);
    var f := Find(r, k);
    var i := if f.Some? then f.value else |r|;
    assert i < |r'| && r'[i] == Entry(k, b);
    assert forall a :: 0 <= a < |r'| && a != i ==> r'[a] == r[a];
    assert DistinctKeys(r');
    FindAt(r', k, i);
    if k2 != k {
      var g := Find(r, k2);
      if g.Some? {
        FindAt(r', k2, g.value);
      }
    }
  }

  /** The map laws of `delete`: it reports whether the key was present,
      the key is gone afterwards, every other key answers as before, keys
      stay distinct, and the size drops by one exactly on success. */
  lemma DeleteLaws(r: Registry, k: string, k2: string)
    requires DistinctKeys(r)
    ensures var (r', removed) := Delete(r, k);
      && DistinctKeys(r')
      && (removed <==> Lookup(r, k).Some?)
      && Lookup(r', k) == None
      && (k2 != k ==> Lookup(r', k2) == Lookup(r, k2))
      && |r'| == |r| - (if removed then 1 else 0)
  {
    var f := Find(r, k);
    if f.Some? {
      WithoutLaws(r, f.value, k2);
    }
  }

  /** Dropping entry i keeps the keys distinct, leaves no entry under its
      key, and every other key answers as before. */
  lemma WithoutLaws(r: Registry, i: nat, k2: string)
    requires DistinctKeys(r) && i < |r|
    ensures DistinctKeys(Without(r, i))
    ensures Find(Without(r, i), r[i].key).None?
    ensures k2 != r[i].key ==> Lookup(Without(r, i), k2) == Lookup(r, k2)
  {
    var r' := Without(r, i);
    assert forall a :: 0 <= a < |r'| ==> r'[a].key != r[i].key;
    if k2 != r[i].key {
      var g := Find(r, k2);
      if g.Some? {
        FindAt(r', k2, if g.value < i then g.value else g.value - 1);
      } else {
        assert forall a :: 0 <= a < |r'| ==> r'[a].key != k2;
      }
    }
  }

  /** In a valid registry the entry under a position's key holds a block at
      that position. */
  lemma FoundAt(r: Registry, p: Pos, i: nat)
    requires KeysMatch(r) && i < |r| && r[i].key == Key(p)
    ensures PosOf(r[i].block) == p
  {
    KeyInjective(PosOf(r[i].block), p);
  }

  /** `getBlock` answers with the record registered at exactly that
      position, and answers at all exactly for the registered positions. */
  lemma GetIsAt(r: Registry, p: Pos)
    requires Valid(r)
    ensures Get(r, p).Some? ==> PosOf(Get(r, p).value) == p
    ensures Get(r, p).Some? <==> p in Positions(r)
  {
    var f := Find(r, Key(p));
    if f.Some? {
      FoundAt(r, p, f.value);
    }
    if p in Positions(r) {
      var i :| 0 <= i < |r| && PosOf(r[i].block) == p;
      assert r[i].key == Key(p);
    }
  }

  /** After `registerBlock` the registry is valid, the record is found at its
      position, every other position answers as before, and the count grows
      by one exactly when the position was free (a replacement keeps the
      count). */
  lemma RegisterGet(r: Registry, b: Block, q: Pos)
    requires Valid(r)
    ensures Valid(Register(r, b))
    ensures Get(Register(r, b), PosOf(b)) == Some(b)
    ensures q != PosOf(b) ==> Get(Register(r, b), q) == Get(r, q)
    ensures Count(Register(r, b)) == Count(r) + (if Get(r, PosOf(b)).Some? then 0 else 1)
  {
    var k := Key(PosOf(b));
    PutLaws(r, k, b, Key(q));
    var r' := Put(r, k, b);
    assert forall a :: 0 <= a < |r'| ==> r'[a] == Entry(k, b) || r'[a] == r[a];
    assert KeysMatch(r');
    KeyInjective(q, PosOf(b));
  }

  /** The new record keeps the position, the kind, the mesh handle and the
      instancing fields it was registered with. */
  lemma RegisterRecord(r: Registry, x: int, y: int, z: int, kind: string, mesh: nat,
                       isInstanced: bool, instanceIndex: Option<int>, container: Option<nat>)
    requires Valid(r)
    ensures var got := Get(Register(r, Block(x, y, z, kind, mesh, isInstanced, instanceIndex, container)), Pos(x, y, z));
      && got.Some?
      && got.value.x == x && got.value.y == y && got.value.z == z
      && got.value.kind == kind && got.value.mesh == mesh
      && got.value.isInstanced == isInstanced && got.value.instanceIndex == instanceIndex
      && got.value.container == container
  {
    RegisterGet(r, Block(x, y, z, kind, mesh, isInstanced, instanceIndex, container), Pos(x, y, z));
  }

  /** `removeBlock` keeps the registry valid and says true exactly when a
      record was there; afterwards none is, every other position answers as
      before, and the count drops by one exactly when it said true. */
  lemma RemoveGet(r: Registry, p: Pos, q: Pos)
    requires Valid(r)
    ensures var (r', removed) := Remove(r, p);
      && Valid(r')
      && (removed <==> Get(r, p).Some?)
      && Get(r', p) == None
      && (q != p ==> Get(r', q) == Get(r, q))
      && Count(r') == Count(r) - (if removed then 1 else 0)
  {
    DeleteLaws(r, Key(p), Key(q));
    KeyInjective(q, p);
    var f := Find(r, Key(p));
    if f.Some? {
      assert KeysMatch(Remove(r, p).0);
    }
  }

  /** After `clearRegistry` the count is 0, the list is empty and nothing is
      found. */
  lemma ClearEmpties(r: Registry, p: Pos)
    ensures Count(Clear(r)) == 0 && AllBlocks(Clear(r)) == []
    ensures Get(Clear(r), p) == None
  {
  }

  /** The positions of a registry are those of all but its last entry,
      plus the last entry's. */
  lemma PositionsSnoc(r: Registry)
    requires |r| > 0
    ensures Positions(r) == Positions(r[..|r| - 1]) + {PosOf(r[|r| - 1].block)}
  {
    var t := r[..|r| - 1];
    forall p | p in Positions(r)
      ensures p in Positions(t) + {PosOf(r[|r| - 1].block)}
    {
      var i :| 0 <= i < |r| && PosOf(r[i].block) == p;
      if i < |t| {
        assert PosOf(t[i].block) == p;
      }
    }
    forall p | p in Positions(t)
      ensures p in Positions(r)
    {
      var i :| 0 <= i < |t| && PosOf(t[i].block) == p;
      assert PosOf(r[i].block) == p;
    }
    assert PosOf(r[|r| - 1].block) in Positions(r);
  }

  /** In a valid registry the last entry's position is not held by any
      earlier entry, and the earlier entries form a valid registry. */
  lemma LastIsNew(r: Registry)
    requires Valid(r) && |r| > 0
    ensures Valid(r[..|r| - 1])
    ensures PosOf(r[|r| - 1].block) !in Positions(r[..|r| - 1])
  {
    var t := r[..|r| - 1];
    var last := r[|r| - 1];
    assert forall i :: 0 <= i < |t| ==> t[i] == r[i];
  }

  /** The count, the length of `getAllBlocks` and the number of distinct
      registered positions agree. */
  lemma {:induction false} CountIsPositions(r: Registry)
    requires Valid(r)
    ensures Count(r) == |AllBlocks(r)| == |Positions(r)|
  {
    if |r| > 0 {
      LastIsNew(r);
      CountIsPositions(r[..|r| - 1]);
      PositionsSnoc(r);
    }
  }
}
