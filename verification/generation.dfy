/** The specification of world generation: what every grid cell holds once
    generation is done, as a function of the settings and of the random draws
    the generator consumes. */
module WorldGeneration {
  import opened Tiles

  datatype Option<T> = None | Some(value: T)

  /** The random draws for one ground cell: the spawn-type draw and the ore
      type the weighted randomizer returns for that cell. */
  datatype CellDraw = CellDraw(spawnChance: real, orePick: ObjectType)

  /** The random draws for one upgrade pickup: its column, its row and the
      index of its type in the configured upgrade list. */
  datatype UpgradeDraw = UpgradeDraw(x: int, y: int, typeIndex: int)

  /** All draws of one generation run, in the order the generator takes
      them: `cells[x][y]` for column x and depth row y, then the upgrades,
      then the spawn column. */
  datatype WorldDraws = WorldDraws(cells: seq<seq<CellDraw>>, upgrades: seq<UpgradeDraw>, spawn: int)

  /** One weighted entry of the ore randomizer. */
  datatype Chance = Chance(item: ObjectType, weight: real)

  /** Hardness tier of depth row y: 2 below the hard threshold, 1 below the
      medium one, 0 above both. */
  function HardnessTier(y: int, mediumDirtStartDepth: int, hardDirtStartDepth: int): (t: Tier)
    ensures t == 2 <==> y > hardDirtStartDepth
    ensures t == 1 <==> y <= hardDirtStartDepth && y > mediumDirtStartDepth
    ensures t == 0 <==> y <= hardDirtStartDepth && y <= mediumDirtStartDepth
  {
    if y > hardDirtStartDepth then 2 else if y > mediumDirtStartDepth then 1 else 0
  }

  /** Tiers never decrease with depth, whatever the two thresholds are. */
  lemma HardnessTierMonotone(y1: int, y2: int, medium: int, hard: int)
    requires y1 <= y2
    ensures HardnessTier(y1, medium, hard) <= HardnessTier(y2, medium, hard)
  {
  }

  predicate BetweenInclusive(y: int, b: Bracket) { b.fromY <= y <= b.toY }

  /** Index of the first bracket whose inclusive range holds y, if any. */
  function FirstBracketIndex(brackets: seq<Bracket>, y: int): (r: Option<nat>)
    ensures r.Some? ==> r.value < |brackets| && BetweenInclusive(y, brackets[r.value])
    ensures r.Some? ==> forall j :: 0 <= j < r.value ==> !BetweenInclusive(y, brackets[j])
    ensures r.None? <==> forall j :: 0 <= j < |brackets| ==> !BetweenInclusive(y, brackets[j])
  {
    if |brackets| == 0 then None
    else if BetweenInclusive(y, brackets[0]) then Some(0)
    else match FirstBracketIndex(brackets[1..], y)
      case None => None
      case Some(i) => Some(i + 1)
  }

  /** Whether an ore rule contributes the entry `c` at depth row y: its first
      matching bracket exists and carries c's weight. */
  predicate Contributes(rule: OreRule, y: int, c: Chance)
  {
    match FirstBracketIndex(rule.brackets, y)
    case None => false
    case Some(k) => c == Chance(rule.ore, rule.brackets[k].chance)
  }

  /** The entries added to the ore randomizer at depth row y: each ore type
      whose bracket list has a bracket holding y contributes one entry with
      the chance of its first such bracket; the others contribute nothing. */
  function OreCandidates(rules: seq<OreRule>, y: int): (r: seq<Chance>)
    ensures |r| <= |rules|
  {
    if |rules| == 0 then []
    else
      var n := |rules| - 1;
      match FirstBracketIndex(rules[n].brackets, y)
      case None => OreCandidates(rules[..n], y)
      case Some(k) => OreCandidates(rules[..n], y) + [Chance(rules[n].ore, rules[n].brackets[k].chance)]
  }

  /** The randomizer's entries at depth row y are exactly the contributions
      of the ore rules: every entry comes from some rule, and every rule with
      a bracket holding y has its entry among them. */
  lemma {:induction false} OreCandidatesExact(rules: seq<OreRule>, y: int)
    ensures forall c :: c in OreCandidates(rules, y) ==> exists i :: 0 <= i < |rules| && Contributes(rules[i], y, c)
    ensures forall i :: 0 <= i < |rules| && FirstBracketIndex(rules[i].brackets, y).Some? ==>
              Chance(rules[i].ore, rules[i].brackets[FirstBracketIndex(rules[i].brackets, y).value].chance)
                in OreCandidates(rules, y)
  {
    if |rules| > 0 {
      var n := |rules| - 1;
      OreCandidatesExact(rules[..n], y);
      assert forall i :: 0 <= i < n ==> rules[i] == rules[..n][i];
    }
  }

  /** The ore types of the rules are pairwise distinct, as the keys of the
      configured ore dictionary are. */
  predicate DistinctOres(rules: seq<OreRule>)
  {
    forall i, j :: 0 <= i < j < |rules| ==> rules[i].ore != rules[j].ore
  }

  /** No two randomizer entries are for the same item. */
  predicate DistinctItems(cands: seq<Chance>)
  {
    forall i, j :: 0 <= i < j < |cands| ==> cands[i].item != cands[j].item
  }

  /** With distinct ore types, the randomizer holds at most one entry per
      ore type. */
  lemma {:induction false} OreCandidatesDistinct(rules: seq<OreRule>, y: int)
    requires DistinctOres(rules)
    ensures DistinctItems(OreCandidates(rules, y))
  {
    if |rules| > 0 {
      var n := |rules| - 1;
      assert DistinctOres(rules[..n]);
      OreCandidatesDistinct(rules[..n], y);
      OreCandidatesExact(rules[..n], y);
      var prev := OreCandidates(rules[..n], y);
      forall c | c in prev
        ensures c.item != rules[n].ore
      {
        var i :| 0 <= i < n && Contributes(rules[..n][i], y, c);
        assert rules[..n][i] == rules[i];
      }
      match FirstBracketIndex(rules[n].brackets, y)
      case None =>
        assert OreCandidates(rules, y) == prev;
      case Some(k) =>
        var r := prev + [Chance(rules[n].ore, rules[n].brackets[k].chance)];
        assert OreCandidates(rules, y) == r;
        forall i, j | 0 <= i < j < |r|
          ensures r[i].item != r[j].item
        {
          assert r[i] == prev[i];
          if j < |prev| {
            assert r[j] == prev[j];
          } else {
            assert r[i] in prev && r[j].item == rules[n].ore;
          }
        }
    }
  }

  predicate IsCandidate(cands: seq<Chance>, t: ObjectType)
  {
    exists c :: c in cands && c.item == t
  }

  /** The tile a ground cell at depth row y receives from its draws. */
  function FilledTile(s: Settings, y: int, d: CellDraw): (t: ObjectType)
  {
    var tier := HardnessTier(y, s.mediumDirtStartDepth, s.hardDirtStartDepth);
    if d.spawnChance <= s.stoneChance then s.tileToHardness(Stone, tier)
    else if d.spawnChance <= s.stoneChance + s.oreChance then s.tileToHardness(d.orePick, tier)
    else s.tileToHardness(Dirt, tier)
  }

  predicate UpgradeAt(u: UpgradeDraw, x: int, y: int) { u.x == x && u.y == y }

  /** Index of the last upgrade draw that lands on cell (x, y), if any. */
  function LastUpgradeIndex(ups: seq<UpgradeDraw>, x: int, y: int): (r: Option<nat>)
    ensures r.Some? ==> r.value < |ups| && UpgradeAt(ups[r.value], x, y)
    ensures r.Some? ==> forall j :: r.value < j < |ups| ==> !UpgradeAt(ups[j], x, y)
    ensures r.None? <==> forall i :: 0 <= i < |ups| ==> !UpgradeAt(ups[i], x, y)
  {
    if |ups| == 0 then None
    else if UpgradeAt(ups[|ups| - 1], x, y) then Some(|ups| - 1)
    else LastUpgradeIndex(ups[..|ups| - 1], x, y)
  }

  /** The upgrade type written last at cell (x, y) by the upgrade draws, if
      any: later pickups overwrite earlier ones on the same cell. */
  function LastUpgradeAt(ups: seq<UpgradeDraw>, types: seq<ObjectType>, x: int, y: int): (r: Option<ObjectType>)
    requires forall i :: 0 <= i < |ups| ==> 0 <= ups[i].typeIndex < |types|
    ensures r.Some? ==> r.value in types
    ensures r.None? <==> forall i :: 0 <= i < |ups| ==> !UpgradeAt(ups[i], x, y)
  {
    match LastUpgradeIndex(ups, x, y)
    case Some(k) => Some(types[ups[k].typeIndex])
    case None => None
  }

  /** One spawn-type and ore draw per ground cell. */
  predicate CellDrawsShaped(s: Settings, width: int, d: WorldDraws)
  {
    |d.cells| == width && forall x :: 0 <= x < width ==> |d.cells[x]| == s.depth
  }

  /** Every upgrade draw lies in the ranges the generator draws from. */
  predicate UpgradeDrawsFit(s: Settings, width: int, ups: seq<UpgradeDraw>)
  {
    forall i :: 0 <= i < |ups| ==>
      && 0 <= ups[i].x < width
      && s.topOffset + 1 <= ups[i].y < s.TilesVertical()
      && 0 <= ups[i].typeIndex < |s.upgradeTypes|
  }

  /** The ore pick of every ground cell is one of the randomizer's entries
      at its depth whenever the randomizer has any. */
  predicate OrePicksFit(s: Settings, width: int, d: WorldDraws)
    requires CellDrawsShaped(s, width, d)
  {
    forall x, y :: 0 <= x < width && 0 <= y < s.depth && OreCandidates(s.oreDepthSpawning, y) != [] ==>
      IsCandidate(OreCandidates(s.oreDepthSpawning, y), d.cells[x][y].orePick)
  }

  /** Whether the draws are ones the random sources can return for a grid
      of `width` columns: every range the generator draws from is respected,
      and the ore pick is one of the randomizer's entries whenever it has
      any. */
  predicate DrawsFit(s: Settings, width: int, d: WorldDraws)
  {
    && s.WellFormed()
    && CellDrawsShaped(s, width, d)
    && OrePicksFit(s, width, d)
    && |d.upgrades| == (if s.upgradeCount < 0 then 0 else s.upgradeCount)
    && UpgradeDrawsFit(s, width, d.upgrades)
    && 6 <= d.spawn < width - 1
  }

  /** The cell after the fill pass: ground rows get their filled tile, the
      air rows keep what they held before (`prior`). */
  function AfterFill(s: Settings, width: int, d: WorldDraws, x: int, y: int, prior: ObjectType): (t: ObjectType)
    requires CellDrawsShaped(s, width, d)
    requires 0 <= x < width
  {
    if s.topOffset <= y < s.TilesVertical() then FilledTile(s, y - s.topOffset, d.cells[x][y - s.topOffset])
    else prior
  }

  /** The cell after the first n upgrade pickups have been written. */
  function AfterUpgrades(s: Settings, width: int, d: WorldDraws, n: nat, x: int, y: int, prior: ObjectType): (t: ObjectType)
    requires CellDrawsShaped(s, width, d) && UpgradeDrawsFit(s, width, d.upgrades)
    requires 0 <= x < width && n <= |d.upgrades|
  {
    match LastUpgradeAt(d.upgrades[..n], s.upgradeTypes, x, y)
    case Some(t) => t
    case None => AfterFill(s, width, d, x, y, prior)
  }

  /** The cell once generation is complete: the spawn cell holds the player,
      the first four cells of the surface row are stone footing, and every
      other cell is what the fill and upgrade passes left there. */
  function GeneratedTile(s: Settings, width: int, d: WorldDraws, x: int, y: int, prior: ObjectType): (t: ObjectType)
    requires CellDrawsShaped(s, width, d) && UpgradeDrawsFit(s, width, d.upgrades)
    requires 0 <= x < width
  {
    if x == d.spawn && y == s.topOffset - 1 then Player
    else if x < 4 && y == s.topOffset then Stone
    else AfterUpgrades(s, width, d, |d.upgrades|, x, y, prior)
  }

  /** The catalog never turns a base type into the player, and the player is
      not an upgrade type. */
  ghost predicate CatalogAvoidsPlayer(s: Settings)
  {
    && (forall b, t :: s.tileToHardness(b, t) != Player)
    && Player !in s.upgradeTypes
  }

  /** Generation leaves exactly one player cell, at the spawn column of the
      row just above the surface, when the grid held no player before. */
  lemma GeneratedWorldHasOnePlayer(s: Settings, width: int, d: WorldDraws, prior: ObjectType)
    requires DrawsFit(s, width, d) && CatalogAvoidsPlayer(s) && prior != Player
    ensures GeneratedTile(s, width, d, d.spawn, s.topOffset - 1, prior) == Player
    ensures forall x, y :: 0 <= x < width && GeneratedTile(s, width, d, x, y, prior) == Player ==>
              x == d.spawn && y == s.topOffset - 1
  {
    assert d.upgrades[..|d.upgrades|] == d.upgrades;
  }

  /** Upgrade pickups only ever land inside the grid, strictly below the
      surface row. */
  lemma UpgradesLieBelowSurface(s: Settings, width: int, d: WorldDraws, x: int, y: int)
    requires DrawsFit(s, width, d)
    requires LastUpgradeAt(d.upgrades, s.upgradeTypes, x, y).Some?
    ensures 0 <= x < width && s.topOffset + 1 <= y < s.TilesVertical()
  {
  }

  /** A ground cell that no pickup covers and that is not footing holds the
      stone or dirt variant of its depth's tier, or the variant of an ore
      whose configured brackets hold that depth; only when no ore has such a
      bracket can it hold whatever the empty randomizer returned. */
  lemma GroundCellMaterial(s: Settings, width: int, d: WorldDraws, x: int, y: int, prior: ObjectType)
    requires DrawsFit(s, width, d) && 0 <= x < width
    requires s.topOffset <= y < s.TilesVertical() && !(x < 4 && y == s.topOffset)
    requires LastUpgradeAt(d.upgrades, s.upgradeTypes, x, y).None?
    ensures var depthRow := y - s.topOffset;
            var tier := HardnessTier(depthRow, s.mediumDirtStartDepth, s.hardDirtStartDepth);
            var rules := s.oreDepthSpawning;
            var t := GeneratedTile(s, width, d, x, y, prior);
            || t == s.tileToHardness(Stone, tier)
            || t == s.tileToHardness(Dirt, tier)
            || (exists i :: 0 <= i < |rules| && FirstBracketIndex(rules[i].brackets, depthRow).Some? &&
                             t == s.tileToHardness(rules[i].ore, tier))
            || (OreCandidates(rules, depthRow) == [] &&
                t == s.tileToHardness(d.cells[x][depthRow].orePick, tier))
  {
    assert d.upgrades[..|d.upgrades|] == d.upgrades;
    var depthRow := y - s.topOffset;
    var rules := s.oreDepthSpawning;
    var draw := d.cells[x][depthRow];
    var tier := HardnessTier(depthRow, s.mediumDirtStartDepth, s.hardDirtStartDepth);
    if s.stoneChance < draw.spawnChance <= s.stoneChance + s.oreChance && OreCandidates(rules, depthRow) != [] {
      var c :| c in OreCandidates(rules, depthRow) && c.item == draw.orePick;
      OreCandidatesExact(rules, depthRow);
      var i :| 0 <= i < |rules| && Contributes(rules[i], depthRow, c);
      assert GeneratedTile(s, width, d, x, y, prior) == s.tileToHardness(rules[i].ore, tier);
    }
  }
}
