/** The voxel world as a value: the chunk registry is a map from chunk
    coordinate to the contents of that chunk's container. The functions here
    are the reference definitions of the mutation protocol; the classes in
    module WorldGenerator are proved to follow them. */
module WorldModel {
  import opened Coords

  datatype Option<T> = None | Some(value: T)

  /** One voxel container: the chunk it was registered for, local key ->
      type code, local key -> accumulated damage, and the two "needs
      processing" flags. */
  datatype Container = Container(chunk: Coord, voxels: map<Coord, int>, damages: map<Coord, real>,
                                 processingNeeded: bool, breaksProcessingNeeded: bool)

  /** A freshly registered container for chunk `c` holds nothing and asks
      for nothing. */
  function NewContainer(c: Coord): Container {
    Container(c, map[], map[], false, false)
  }

  /** The chunk registry: chunk coordinate -> container. */
  type Registry = map<Coord, Container>

  /** One placement request: PlaceVoxel(at, kind, overwrite). */
  datatype Placement = Placement(at: Coord, kind: int, overwrite: bool)

  /** Every stored key is a local offset inside the chunk and the empty
      type 0 is never stored. */
  predicate ContainerWellFormed(ch: Container) {
    && (forall k | k in ch.voxels :: InChunk(k) && ch.voxels[k] != 0)
    && (forall k | k in ch.damages :: InChunk(k))
  }

  /** Every container of the registry is well formed and sits under the
      chunk it was registered for. */
  predicate WellFormed(reg: Registry) {
    forall c | c in reg :: reg[c].chunk == c && ContainerWellFormed(reg[c])
  }

  /** The container for `c`, or a new empty one when `c` is
      unregistered. */
  function ContainerAt(reg: Registry, c: Coord): Container {
    if c in reg then reg[c] else NewContainer(c)
  }

  /** GetVoxel: the type stored at `p`, None when the chunk is unregistered
      or the voxel absent. A read never registers anything. */
  function GetVoxel(reg: Registry, p: Coord): Option<int> {
    var c := ChunkOf(p);
    if c in reg && LocalOf(p) in reg[c].voxels then Some(reg[c].voxels[LocalOf(p)]) else None
  }

  predicate Present(reg: Registry, p: Coord) {
    GetVoxel(reg, p).Some?
  }

  function West(p: Coord): Coord { Coord(p.x - 1, p.y, p.z) }
  function East(p: Coord): Coord { Coord(p.x + 1, p.y, p.z) }
  function Above(p: Coord): Coord { Coord(p.x, p.y + 1, p.z) }
  function Below(p: Coord): Coord { Coord(p.x, p.y - 1, p.z) }
  function South(p: Coord): Coord { Coord(p.x, p.y, p.z - 1) }
  function North(p: Coord): Coord { Coord(p.x, p.y, p.z + 1) }

  /** The five neighbours that the contact test looks at; the one below is
      deliberately not among them. */
  function Checked(p: Coord): seq<Coord> {
    [West(p), East(p), Above(p), South(p), North(p)]
  }

  /** IsContactVoxel: a present voxel is a contact voxel unless all five
      checked neighbours are present. */
  predicate IsContactVoxel(reg: Registry, p: Coord) {
    if !Present(reg, p) then false
    else if Present(reg, West(p)) && Present(reg, East(p)) && Present(reg, Above(p))
         && Present(reg, South(p)) && Present(reg, North(p)) then false
    else true
  }

  /** The part of PlaceVoxel that acts on the target container `ch` at
      local key `k`: type 0 removes the voxel and, when signalling, marks the
      container whether or not anything was removed; a non-zero type is
      written when overwriting or when the key is free, and marks the
      container only when the stored value changed. */
  function PlaceInContainer(ch: Container, sig: bool, k: Coord, t: int, overwrite: bool): Container {
    if t == 0 then
      ch.(voxels := ch.voxels - {k}, processingNeeded := ch.processingNeeded || sig)
    else if overwrite || k !in ch.voxels then
      var changed := k !in ch.voxels || ch.voxels[k] != t;
      ch.(voxels := ch.voxels[k := t], processingNeeded := ch.processingNeeded || (changed && sig))
    else ch
  }

  /** PlaceVoxel with the world's sygnalize flag `sig`: the target chunk is
      registered with an empty container if it was not, and the placement is
      made in its container. */
  function Place(reg: Registry, sig: bool, p: Coord, t: int, overwrite: bool): Registry {
    var c := ChunkOf(p);
    reg[c := PlaceInContainer(ContainerAt(reg, c), sig, LocalOf(p), t, overwrite)]
  }

  /** Damage recorded so far for the voxel at `p` (0 when none). */
  function DamageAt(reg: Registry, p: Coord): real {
    var c := ChunkOf(p);
    if c in reg && LocalOf(p) in reg[c].damages then reg[c].damages[LocalOf(p)] else 0.0
  }

  /** The bookkeeping part of PlaceDamage on container `ch`: the entry for
      `k` grows by `amount` (starting from 0 when absent) and the container
      asks for break processing. */
  function DamageInContainer(ch: Container, k: Coord, amount: real): Container {
    var total := (if k in ch.damages then ch.damages[k] else 0.0) + amount;
    ch.(damages := ch.damages[k := total], breaksProcessingNeeded := true)
  }

  /** PlaceDamage: nothing happens in an unregistered chunk; otherwise the
      damage is recorded and a total above 1 removes the voxel. */
  function Damage(reg: Registry, sig: bool, p: Coord, amount: real): Registry {
    var c := ChunkOf(p);
    if c !in reg then reg
    else
      var reg1 := reg[c := DamageInContainer(reg[c], LocalOf(p), amount)];
      if DamageAt(reg1, p) > 1.0 then Place(reg1, sig, p, 0, true) else reg1
  }

  /** The first n placements of `ps`, issued in order with a fixed
      signalling flag. */
  function ApplyFirst(reg: Registry, sig: bool, ps: seq<Placement>, n: nat): Registry
    requires n <= |ps|
    decreases n
  {
    if n == 0 then reg
    else
      var last := ps[n - 1];
      Place(ApplyFirst(reg, sig, ps, n - 1), sig, last.at, last.kind, last.overwrite)
  }

  /** All of `ps`, issued in order with a fixed signalling flag. */
  function ApplyAll(reg: Registry, sig: bool, ps: seq<Placement>): Registry {
    ApplyFirst(reg, sig, ps, |ps|)
  }

  // ---------------------------------------------------------------------
  // GetVoxel

  /** An unregistered chunk reads as empty everywhere. */
  lemma GetUnregistered(reg: Registry, p: Coord)
    requires ChunkOf(p) !in reg
    ensures GetVoxel(reg, p) == None
  {
  }

  // ---------------------------------------------------------------------
  // PlaceVoxel

  /** What a read of the target voxel returns after PlaceVoxel. */
  lemma PlaceGetSelf(reg: Registry, sig: bool, p: Coord, t: int, overwrite: bool)
    ensures t == 0 ==> GetVoxel(Place(reg, sig, p, t, overwrite), p) == None
    ensures t != 0 && overwrite ==> GetVoxel(Place(reg, sig, p, t, overwrite), p) == Some(t)
    ensures t != 0 && !overwrite && Present(reg, p) ==>
              GetVoxel(Place(reg, sig, p, t, overwrite), p) == GetVoxel(reg, p)
    ensures t != 0 && !overwrite && !Present(reg, p) ==>
              GetVoxel(Place(reg, sig, p, t, overwrite), p) == Some(t)
  {
  }

  /** PlaceVoxel changes no voxel other than its target. */
  lemma {:induction false} PlaceGetOther(reg: Registry, sig: bool, p: Coord, t: int, overwrite: bool, q: Coord)
    requires q != p
    ensures GetVoxel(Place(reg, sig, p, t, overwrite), q) == GetVoxel(reg, q)
  {
    if ChunkOf(q) == ChunkOf(p) && LocalOf(q) == LocalOf(p) {
      AddressInjective(p, q);
    }
  }

  /** PlaceVoxel leaves the target chunk registered (even for type 0),
      registers no other chunk and leaves every other container as it
      was. */
  lemma PlaceRegistry(reg: Registry, sig: bool, p: Coord, t: int, overwrite: bool)
    ensures Place(reg, sig, p, t, overwrite).Keys == reg.Keys + {ChunkOf(p)}
    ensures forall c | c in reg && c != ChunkOf(p) :: Place(reg, sig, p, t, overwrite)[c] == reg[c]
  {
  }

  /** PlaceVoxel does not touch damage or break processing, and the
      processing flag of the target is raised exactly as follows: never
      when not signalling; for type 0 always when signalling; for a
      non-zero type only when the stored value at the target changed. An
      already raised flag is never cleared. */
  lemma PlaceSignal(reg: Registry, sig: bool, p: Coord, t: int, overwrite: bool)
    ensures var r := Place(reg, sig, p, t, overwrite);
            var before := ContainerAt(reg, ChunkOf(p));
            && r[ChunkOf(p)].damages == before.damages
            && r[ChunkOf(p)].breaksProcessingNeeded == before.breaksProcessingNeeded
            && (!sig ==> r[ChunkOf(p)].processingNeeded == before.processingNeeded)
            && (sig && t == 0 ==> r[ChunkOf(p)].processingNeeded)
            && (sig && t != 0 ==>
                  r[ChunkOf(p)].processingNeeded == (before.processingNeeded || GetVoxel(r, p) != GetVoxel(reg, p)))
  {
  }

  /** PlaceVoxel keeps the registry well formed. */
  lemma PlaceWellFormed(reg: Registry, sig: bool, p: Coord, t: int, overwrite: bool)
    requires WellFormed(reg)
    ensures WellFormed(Place(reg, sig, p, t, overwrite))
  {
    Decompose(p);
  }

  // ---------------------------------------------------------------------
  // IsContactVoxel

  /** The three outcomes of the contact test. */
  lemma ContactCases(reg: Registry, p: Coord)
    ensures !Present(reg, p) ==> !IsContactVoxel(reg, p)
    ensures Present(reg, p) && (forall i | 0 <= i < 5 :: Present(reg, Checked(p)[i])) ==> !IsContactVoxel(reg, p)
    ensures Present(reg, p) && (exists i | 0 <= i < 5 :: !Present(reg, Checked(p)[i])) ==> IsContactVoxel(reg, p)
  {
    var n := Checked(p);
    assert n[0] == West(p) && n[1] == East(p) && n[2] == Above(p) && n[3] == South(p) && n[4] == North(p);
    if Present(reg, p) && (exists i | 0 <= i < 5 :: !Present(reg, Checked(p)[i])) {
      var i :| 0 <= i < 5 && !Present(reg, Checked(p)[i]);
      assert !Present(reg, Checked(p)[i]);
    }
  }

  /** Whatever is placed below a voxel never changes its contact status. */
  lemma {:induction false} ContactIgnoresBelow(reg: Registry, sig: bool, p: Coord, t: int, overwrite: bool)
    ensures IsContactVoxel(Place(reg, sig, Below(p), t, overwrite), p) == IsContactVoxel(reg, p)
  {
    var b := Below(p);
    PlaceGetOther(reg, sig, b, t, overwrite, p);
    PlaceGetOther(reg, sig, b, t, overwrite, West(p));
    PlaceGetOther(reg, sig, b, t, overwrite, East(p));
    PlaceGetOther(reg, sig, b, t, overwrite, Above(p));
    PlaceGetOther(reg, sig, b, t, overwrite, South(p));
    PlaceGetOther(reg, sig, b, t, overwrite, North(p));
  }

  // ---------------------------------------------------------------------
  // PlaceDamage

  /** Damage in an unregistered chunk changes nothing. */
  lemma DamageUnregistered(reg: Registry, sig: bool, p: Coord, amount: real)
    requires ChunkOf(p) !in reg
    ensures Damage(reg, sig, p, amount) == reg
  {
  }

  /** Damage in a registered chunk: the entry for `p` grows by exactly
      `amount` and is never removed, the container asks for break
      processing, it asks for processing when signalling and the voxel is
      destroyed (and keeps its flag otherwise), the voxel disappears once the total exceeds 1 and stays
      otherwise, and no other voxel, damage entry or chunk changes. */
  lemma {:induction false} DamageEffect(reg: Registry, sig: bool, p: Coord, amount: real)
    requires ChunkOf(p) in reg
    ensures var r := Damage(reg, sig, p, amount);
            var c := ChunkOf(p);
            && r.Keys == reg.Keys
            && r[c].damages == reg[c].damages[LocalOf(p) := DamageAt(reg, p) + amount]
            && DamageAt(r, p) == DamageAt(reg, p) + amount
            && r[c].breaksProcessingNeeded
            && r[c].processingNeeded == (reg[c].processingNeeded || (sig && DamageAt(reg, p) + amount > 1.0))
            && GetVoxel(r, p) == (if DamageAt(reg, p) + amount > 1.0 then None else GetVoxel(reg, p))
            && (forall q | q != p :: GetVoxel(r, q) == GetVoxel(reg, q))
            && (forall d | d in reg && d != c :: r[d] == reg[d])
  {
    var c := ChunkOf(p);
    var reg1 := reg[c := DamageInContainer(reg[c], LocalOf(p), amount)];
    if DamageAt(reg1, p) > 1.0 {
      PlaceGetSelf(reg1, sig, p, 0, true);
      forall q | q != p ensures GetVoxel(Damage(reg, sig, p, amount), q) == GetVoxel(reg, q) {
        PlaceGetOther(reg1, sig, p, 0, true, q);
      }
    }
  }

  /** PlaceDamage keeps the registry well formed. */
  lemma DamageWellFormed(reg: Registry, sig: bool, p: Coord, amount: real)
    requires WellFormed(reg)
    ensures WellFormed(Damage(reg, sig, p, amount))
  {
    Decompose(p);
    if ChunkOf(p) in reg {
      var c := ChunkOf(p);
      var reg1 := reg[c := DamageInContainer(reg[c], LocalOf(p), amount)];
      assert WellFormed(reg1);
      PlaceWellFormed(reg1, sig, p, 0, true);
    }
  }

  /** No operation clears a flag: a container that asked for processing or
      break processing still does afterwards. */
  lemma FlagsNeverCleared(reg: Registry, sig: bool, p: Coord, t: int, overwrite: bool, amount: real, c: Coord)
    requires c in reg
    ensures reg[c].processingNeeded ==> Place(reg, sig, p, t, overwrite)[c].processingNeeded
    ensures reg[c].breaksProcessingNeeded ==> Place(reg, sig, p, t, overwrite)[c].breaksProcessingNeeded
    ensures reg[c].processingNeeded ==> Damage(reg, sig, p, amount)[c].processingNeeded
    ensures reg[c].breaksProcessingNeeded ==> Damage(reg, sig, p, amount)[c].breaksProcessingNeeded
  {
  }

  /** Four hits of 0.3 on one voxel: it survives three (0.9 is not above 1)
      and the fourth (1.2) destroys it. */
  lemma {:induction false} DamageScenario(reg: Registry, sig: bool, p: Coord)
    requires ChunkOf(p) in reg && Present(reg, p) && DamageAt(reg, p) == 0.0
    ensures var r1 := Damage(reg, sig, p, 0.3);
            var r2 := Damage(r1, sig, p, 0.3);
            var r3 := Damage(r2, sig, p, 0.3);
            var r4 := Damage(r3, sig, p, 0.3);
            Present(r3, p) && !Present(r4, p) && DamageAt(r4, p) == 1.2
  {
    var r1 := Damage(reg, sig, p, 0.3);
    DamageEffect(reg, sig, p, 0.3);
    var r2 := Damage(r1, sig, p, 0.3);
    DamageEffect(r1, sig, p, 0.3);
    var r3 := Damage(r2, sig, p, 0.3);
    DamageEffect(r2, sig, p, 0.3);
    DamageEffect(r3, sig, p, 0.3);
  }

  // ---------------------------------------------------------------------
  // Sequences of placements

  /** A pass made without signalling raises no processing flag: every
      container's flag is what it was before, and a container created by
      the pass has it clear. */
  lemma {:induction false} SilentPass(reg: Registry, ps: seq<Placement>, n: nat)
    requires n <= |ps|
    ensures var r := ApplyFirst(reg, false, ps, n);
            && reg.Keys <= r.Keys
            && forall c | c in r :: r[c].processingNeeded == (c in reg && reg[c].processingNeeded)
    decreases n
  {
    if n > 0 {
      SilentPass(reg, ps, n - 1);
    }
  }

  /** A pass of placements keeps the registry well formed. */
  lemma {:induction false} ApplyFirstWellFormed(reg: Registry, sig: bool, ps: seq<Placement>, n: nat)
    requires n <= |ps|
    requires WellFormed(reg)
    ensures WellFormed(ApplyFirst(reg, sig, ps, n))
    decreases n
  {
    if n > 0 {
      ApplyFirstWellFormed(reg, sig, ps, n - 1);
      var last := ps[n - 1];
      PlaceWellFormed(ApplyFirst(reg, sig, ps, n - 1), sig, last.at, last.kind, last.overwrite);
    }
  }

  /** A pass leaves every voxel it does not target as it was. */
  lemma {:induction false} ApplyFirstUntouched(reg: Registry, sig: bool, ps: seq<Placement>, n: nat, q: Coord)
    requires n <= |ps|
    requires forall i | 0 <= i < n :: ps[i].at != q
    ensures GetVoxel(ApplyFirst(reg, sig, ps, n), q) == GetVoxel(reg, q)
    decreases n
  {
    if n > 0 {
      var last := ps[n - 1];
      ApplyFirstUntouched(reg, sig, ps, n - 1, q);
      PlaceGetOther(ApplyFirst(reg, sig, ps, n - 1), sig, last.at, last.kind, last.overwrite, q);
    }
  }
}
