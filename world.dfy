/** The world generator's mutable state: the registry of voxel containers,
    one per chunk, and the flag that decides whether edits mark containers
    for reprocessing. Each operation is proved to make the change its
    reference definition in module WorldModel describes. */
module WorldGenerator {
  import opened Coords
  import opened WorldModel
  import Column

  class World {
    // chunk coordinate -> container; a container is registered on the
    // first write into its chunk and never removed
    var containers: Registry
    // should edits mark containers for processing?
    var sygnalize: bool

    ghost predicate Valid()
      reads this`containers
    {
      WellFormed(containers)
    }

    /** An empty world that signals its edits. */
    constructor ()
      ensures Valid()
      ensures containers == map[] && sygnalize
    {
      containers := map[];
      sygnalize := true;
    }

    /** GetVoxel on the current registry. It is a function of the state, so
        a read changes nothing and registers no container. */
    function GetVoxel(x: int, y: int, z: int): (v: Option<int>)
      reads this`containers
      ensures Valid() ==> v != Some(0)
    {
      WorldModel.GetVoxel(containers, Coord(x, y, z))
    }

    /** IsContactVoxel on the current registry; a read as well. */
    predicate IsContactVoxel(x: int, y: int, z: int)
      reads this`containers
    {
      WorldModel.IsContactVoxel(containers, Coord(x, y, z))
    }

    /** Places type `t` at (x, y, z), registering the chunk's container
        first if there is none. */
    method PlaceVoxel(x: int, y: int, z: int, t: int, overwrite: bool := true)
      requires Valid()
      modifies this
      ensures Valid()
      ensures sygnalize == old(sygnalize)
      ensures containers == Place(old(containers), old(sygnalize), Coord(x, y, z), t, overwrite)
    {
      var p := Coord(x, y, z);
      var c := ChunkOf(p);
      ghost var before := containers;
      if c !in containers {
        containers := containers[c := NewContainer(c)];
      }
      var vc := containers[c];
      var key := LocalOf(p);
      if t == 0 {
        vc := vc.(voxels := vc.voxels - {key});
        if sygnalize {
          vc := vc.(processingNeeded := true);
        }
      } else if overwrite || key !in vc.voxels {
        // AddOrReplace: store the type and report whether the stored value changed
        var changed := key !in vc.voxels || vc.voxels[key] != t;
        vc := vc.(voxels := vc.voxels[key := t]);
        if changed && sygnalize {
          vc := vc.(processingNeeded := true);
        }
      }
      containers := containers[c := vc];
      PlaceWellFormed(before, sygnalize, p, t, overwrite);
    }

    /** Adds `amount` to the damage of (x, y, z) when its chunk is
        registered, destroying the voxel once the total exceeds 1. */
    method PlaceDamage(x: int, y: int, z: int, amount: real)
      requires Valid()
      modifies this
      ensures Valid()
      ensures sygnalize == old(sygnalize)
      ensures containers == Damage(old(containers), old(sygnalize), Coord(x, y, z), amount)
    {
      var p := Coord(x, y, z);
      var c := ChunkOf(p);
      if c in containers {
        ghost var before := containers;
        var vc := containers[c];
        var key := LocalOf(p);
        if key in vc.damages {
          vc := vc.(damages := vc.damages[key := vc.damages[key] + amount]);
        } else {
          vc := vc.(damages := vc.damages[key := amount]);
        }
        vc := vc.(breaksProcessingNeeded := true);
        containers := containers[c := vc];
        Decompose(p);
        assert DamageAt(containers, p) == vc.damages[key];
        if vc.damages[key] > 1.0 {
          PlaceVoxel(x, y, z, 0, true);
        }
      }
    }

    /** The column pass of GenerateVoxelsForCoord: clamps the ground level,
        places every layer of column (cx, cz) with the current signalling,
        and returns the layer count. */
    method PlaceColumn(cx: int, cz: int, groundLevel: int, bil: real) returns (max: int)
      requires Valid()
      modifies this
      ensures Valid()
      ensures sygnalize == old(sygnalize)
      ensures max == Column.LayerCount(Column.ClampLevel(groundLevel))
      ensures containers == ApplyAll(old(containers), old(sygnalize), Column.ColumnPlan(cx, cz, groundLevel, bil))
    {
      var maxLevel := groundLevel;
      if maxLevel <= 0 {
        maxLevel := 1;
      }
      max := if maxLevel > Column.MinLayers then maxLevel else Column.MinLayers;
      assert maxLevel == Column.ClampLevel(groundLevel) && max == Column.LayerCount(maxLevel);
      ghost var plan := Column.ColumnPlan(cx, cz, groundLevel, bil);
      ghost var start := containers;
      var la := 0;
      while la < max
        invariant 0 <= la <= max
        invariant Valid()
        invariant sygnalize == old(sygnalize)
        invariant containers == ApplyFirst(start, sygnalize, plan, la)
      {
        var realy := la - Column.Depth;
        var kind := Column.LayerType(la, max, maxLevel, bil);
        Column.ColumnPlanAt(cx, cz, groundLevel, bil, la);
        PlaceVoxel(cx, realy, cz, kind, true);
        la := la + 1;
      }
      Column.ColumnPlanShape(cx, cz, groundLevel, bil);
    }

    /** Issues `placements` through PlaceVoxel, in order, with the current
        signalling. */
    method PlaceAll(placements: seq<Placement>)
      requires Valid()
      modifies this
      ensures Valid()
      ensures sygnalize == old(sygnalize)
      ensures containers == ApplyAll(old(containers), old(sygnalize), placements)
    {
      ghost var start := containers;
      var i := 0;
      while i < |placements|
        invariant 0 <= i <= |placements|
        invariant Valid()
        invariant sygnalize == old(sygnalize)
        invariant containers == ApplyFirst(start, sygnalize, placements, i)
      {
        var pl := placements[i];
        PlaceVoxel(pl.at.x, pl.at.y, pl.at.z, pl.kind, pl.overwrite);
        i := i + 1;
      }
    }

    /** Generates column (cx, cz) from its ground level and billow sample,
        then runs the structure generators on it without signalling.
        `generators` stands for the registered generators: given the column
        and the height handed to them, the placements they issue, in
        order. */
    method GenerateVoxelsForCoord(cx: int, cz: int, groundLevel: int, bil: real,
                                  generators: (int, int, int) -> seq<Placement>)
      requires Valid()
      modifies this
      ensures Valid()
      ensures sygnalize
      ensures containers ==
                ApplyAll(ApplyAll(old(containers), old(sygnalize), Column.ColumnPlan(cx, cz, groundLevel, bil)),
                         false, generators(cx, Column.GeneratorHeight(groundLevel), cz))
    {
      var max := PlaceColumn(cx, cz, groundLevel, bil);
      max := max - Column.Depth;
      assert max == Column.GeneratorHeight(groundLevel);
      sygnalize := false;
      PlaceAll(generators(cx, max, cz));
      sygnalize := true;
    }
  }
}
