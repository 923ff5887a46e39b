/** Generation of one terrain column: how many layers, at which heights and
    of which material, given the ground level and the billow sample that the
    noise fields produce for the column. */
module Column {
  import opened Coords
  import opened Materials
  import opened WorldModel

  /** Layer la is placed at y = la - Depth. */
  const Depth: int := 16

  /** A column is always at least this many layers tall. */
  const MinLayers: int := 15

  /** The ground level, raised to 1 when it is not positive. */
  function ClampLevel(groundLevel: int): (m: int)
    ensures m >= 1
    ensures groundLevel >= 1 ==> m == groundLevel
    ensures groundLevel <= 0 ==> m == 1
  {
    if groundLevel <= 0 then 1 else groundLevel
  }

  /** The number of layers: the larger of the level and MinLayers. */
  function LayerCount(level: int): (n: int)
    ensures n >= MinLayers && n >= level
    ensures n == level || n == MinLayers
  {
    if level > MinLayers then level else MinLayers
  }

  /** Material of layer `la` in a column of `count` layers with (clamped)
      ground level `level` and billow sample `bil`: 1 on the top layer and 3
      below it, replaced by 4 on high ground, by 6 on low ground, and by the
      liquid 64 on every layer above the ground level. */
  function LayerType(la: int, count: int, level: int, bil: real): (t: int)
    ensures t in {1, 3, 4, 6, 64}
    ensures la > level ==> t == 64
    ensures la <= level ==> t != 64
  {
    var t0 := if la == count - 1 then 1 else 3;
    var t1 := if level as real > 10.0 + 16.0 + bil then 4 else t0;
    var t2 := if (level as real) < 3.0 + 16.0 + bil then 6 else t1;
    if la > level then 64 else t2
  }

  /** Layers above the ground level are exactly the liquid ones, and the
      rest are solid. */
  lemma LayerLiquidAboveGround(la: int, count: int, level: int, bil: real)
    ensures IsLiquid(LayerType(la, count, level, bil)) <==> la > level
    ensures IsSolid(LayerType(la, count, level, bil)) <==> la <= level
  {
  }

  /** Which rule decides a layer's material: the liquid rule first, then low
      ground, then high ground, then the top-layer rule. */
  lemma LayerTypeCases(la: int, count: int, level: int, bil: real)
    ensures var t := LayerType(la, count, level, bil);
            var low := (level as real) < 19.0 + bil;
            var high := (level as real) > 26.0 + bil;
            && (t == 6 <==> la <= level && low)
            && (t == 4 <==> la <= level && !low && high)
            && (t == 1 <==> la <= level && !low && !high && la == count - 1)
            && (t == 3 <==> la <= level && !low && !high && la != count - 1)
  {
  }

  /** The placements GenerateVoxelsForCoord issues for column (cx, cz)
      before the generator pass, in the order it issues them. */
  function ColumnPlan(cx: int, cz: int, groundLevel: int, bil: real): seq<Placement> {
    var level := ClampLevel(groundLevel);
    var n := LayerCount(level);
    Layers(cx, cz, n, level, bil, n)
  }

  /** The placements of layers 0 .. k - 1 of a column of n layers. */
  function Layers(cx: int, cz: int, n: int, level: int, bil: real, k: nat): (ps: seq<Placement>)
    ensures |ps| == k
    decreases k
  {
    if k == 0 then []
    else
      Layers(cx, cz, n, level, bil, k - 1) +
      [Placement(Coord(cx, k - 1 - Depth, cz), LayerType(k - 1, n, level, bil), true)]
  }

  /** Placement la of the first k layers: layer la at y = la - Depth,
      overwriting, with its layer type. */
  lemma {:induction false} LayersAt(cx: int, cz: int, n: int, level: int, bil: real, k: nat, la: int)
    requires 0 <= la < k
    ensures Layers(cx, cz, n, level, bil, k)[la] ==
            Placement(Coord(cx, la - Depth, cz), LayerType(la, n, level, bil), true)
    decreases k
  {
    if la < k - 1 {
      LayersAt(cx, cz, n, level, bil, k - 1, la);
    }
  }

  /** Layer la of the plan, spelled out. */
  lemma ColumnPlanAt(cx: int, cz: int, groundLevel: int, bil: real, la: int)
    requires 0 <= la < LayerCount(ClampLevel(groundLevel))
    ensures var level := ClampLevel(groundLevel);
            var plan := ColumnPlan(cx, cz, groundLevel, bil);
            && |plan| == LayerCount(level)
            && plan[la] == Placement(Coord(cx, la - Depth, cz), LayerType(la, |plan|, level, bil), true)
  {
    var level := ClampLevel(groundLevel);
    LayersAt(cx, cz, LayerCount(level), level, bil, LayerCount(level), la);
  }

  /** The height handed to the structure generators: the layer count moved
      into the same offset space as the placed y coordinates. */
  function GeneratorHeight(groundLevel: int): int {
    LayerCount(ClampLevel(groundLevel)) - Depth
  }

  /** The generators are handed the cell just above the column's top
      layer. */
  lemma GeneratorHeightAboveColumn(cx: int, cz: int, groundLevel: int, bil: real)
    ensures var plan := ColumnPlan(cx, cz, groundLevel, bil);
            && |plan| > 0
            && plan[|plan| - 1].at == Coord(cx, GeneratorHeight(groundLevel) - 1, cz)
  {
    ColumnPlanAt(cx, cz, groundLevel, bil, LayerCount(ClampLevel(groundLevel)) - 1);
  }

  /** The column has max(max(groundLevel, 1), 15) layers; layer la sits at
      y = la - 16 in column (cx, cz), overwrites, and has a non-empty type
      from {1, 3, 4, 6, 64}, liquid exactly above the clamped ground. */
  lemma ColumnPlanShape(cx: int, cz: int, groundLevel: int, bil: real)
    ensures var plan := ColumnPlan(cx, cz, groundLevel, bil);
            var level := ClampLevel(groundLevel);
            && |plan| == LayerCount(level)
            && |plan| == (if groundLevel > MinLayers then groundLevel else MinLayers)
            && forall la | 0 <= la < |plan| ::
                 && plan[la].at == Coord(cx, la - Depth, cz)
                 && plan[la].overwrite
                 && plan[la].kind in {1, 3, 4, 6, 64}
                 && (IsLiquid(plan[la].kind) <==> la > level)
  {
    var plan := ColumnPlan(cx, cz, groundLevel, bil);
    var level := ClampLevel(groundLevel);
    forall la | 0 <= la < |plan|
      ensures && plan[la].at == Coord(cx, la - Depth, cz)
              && plan[la].overwrite
              && plan[la].kind in {1, 3, 4, 6, 64}
              && (IsLiquid(plan[la].kind) <==> la > level)
    {
      ColumnPlanAt(cx, cz, groundLevel, bil, la);
      LayerLiquidAboveGround(la, |plan|, level, bil);
    }
  }

  /** A column whose ground reaches MinLayers - 1 holds no liquid at all:
      its top layer index is max(level, MinLayers) - 1, which is at most the
      level. */
  lemma HighColumnIsDry(cx: int, cz: int, groundLevel: int, bil: real)
    requires groundLevel >= MinLayers - 1
    ensures var plan := ColumnPlan(cx, cz, groundLevel, bil);
            forall la | 0 <= la < |plan| :: IsSolid(plan[la].kind)
  {
    ColumnPlanShape(cx, cz, groundLevel, bil);
  }

  /** After the first k layers are placed, each of them reads back its own
      type. */
  lemma {:induction false} ColumnPrefix(reg: Registry, sig: bool, cx: int, cz: int, groundLevel: int, bil: real, k: nat)
    requires k <= |ColumnPlan(cx, cz, groundLevel, bil)|
    ensures var plan := ColumnPlan(cx, cz, groundLevel, bil);
            forall la | 0 <= la < k ::
              GetVoxel(ApplyFirst(reg, sig, plan, k), Coord(cx, la - Depth, cz)) == Some(plan[la].kind)
    decreases k
  {
    if k > 0 {
      var plan := ColumnPlan(cx, cz, groundLevel, bil);
      ColumnPrefix(reg, sig, cx, cz, groundLevel, bil, k - 1);
      var before := ApplyFirst(reg, sig, plan, k - 1);
      var last := plan[k - 1];
      ColumnPlanAt(cx, cz, groundLevel, bil, k - 1);
      PlaceGetSelf(before, sig, last.at, last.kind, last.overwrite);
      forall la | 0 <= la < k - 1
        ensures GetVoxel(ApplyFirst(reg, sig, plan, k), Coord(cx, la - Depth, cz)) == Some(plan[la].kind)
      {
        PlaceGetOther(before, sig, last.at, last.kind, last.overwrite, Coord(cx, la - Depth, cz));
      }
    }
  }

  /** The column pass leaves every voxel outside the column's cells as it
      was. */
  lemma {:induction false} ColumnUntouched(reg: Registry, sig: bool, cx: int, cz: int, groundLevel: int, bil: real, q: Coord)
    requires q.x != cx || q.z != cz || q.y < -Depth || q.y >= |ColumnPlan(cx, cz, groundLevel, bil)| - Depth
    ensures GetVoxel(ApplyAll(reg, sig, ColumnPlan(cx, cz, groundLevel, bil)), q) == GetVoxel(reg, q)
  {
    var plan := ColumnPlan(cx, cz, groundLevel, bil);
    forall i | 0 <= i < |plan| ensures plan[i].at != q {
      ColumnPlanAt(cx, cz, groundLevel, bil, i);
    }
    ApplyFirstUntouched(reg, sig, plan, |plan|, q);
  }

  /** After the column pass every layer holds its planned type. */
  lemma {:induction false} ColumnResult(reg: Registry, sig: bool, cx: int, cz: int, groundLevel: int, bil: real)
    ensures var plan := ColumnPlan(cx, cz, groundLevel, bil);
            forall la | 0 <= la < |plan| ::
              GetVoxel(ApplyAll(reg, sig, plan), Coord(cx, la - Depth, cz)) ==
                Some(LayerType(la, |plan|, ClampLevel(groundLevel), bil))
  {
    var plan := ColumnPlan(cx, cz, groundLevel, bil);
    ColumnPrefix(reg, sig, cx, cz, groundLevel, bil, |plan|);
    forall la | 0 <= la < |plan|
      ensures plan[la].kind == LayerType(la, |plan|, ClampLevel(groundLevel), bil)
    {
      ColumnPlanAt(cx, cz, groundLevel, bil, la);
    }
  }
}
