/**
 * The player's actions in frontend/src/game/game.js: handleCellClick
 * (select a tower or build one), setNextTower, upgradeSelected and
 * sellSelected. Messages to the player are not kept; tower ids come from
 * the state's id counter instead of crypto.randomUUID.
 */
module Actions {
  import opened Wrappers
  import opened Corridor
  import opened GameState
  import Towers
  import JsNumber

  /** `state.buildable[cell.y]?.[cell.x]`: false outside the mask. */
  predicate Buildable(mask: seq<seq<bool>>, cell: Cell) {
    0 <= cell.y < |mask| && 0 <= cell.x < |mask[cell.y]| && mask[cell.y][cell.x]
  }

  predicate At(t: Tower, cell: Cell) {
    t.x == cell.x && t.y == cell.y
  }

  /** towers.find at a cell: the first tower standing on it. */
  function TowerAt(towers: seq<Tower>, cell: Cell): (r: Option<nat>)
    ensures r.None? <==> forall k :: 0 <= k < |towers| ==> !At(towers[k], cell)
    ensures r.Some? ==> r.value < |towers| && At(towers[r.value], cell)
                        && forall k :: 0 <= k < r.value ==> !At(towers[k], cell)
    decreases |towers|
  {
    if |towers| == 0 then None
    else if At(towers[0], cell) then Some(0)
    else
      var rest := TowerAt(towers[1..], cell);
      if rest.None? then None else Some(rest.value + 1)
  }

  /** towers.find / findIndex by id: the first tower carrying the selected id; none without a selection. */
  function SelectedIndex(towers: seq<Tower>, id: Option<nat>): (r: Option<nat>)
    ensures id.None? ==> r.None?
    ensures id.Some? ==> (r.None? <==> forall k :: 0 <= k < |towers| ==> towers[k].id != id.value)
    ensures r.Some? ==> r.value < |towers| && towers[r.value].id == id.value
                        && forall k :: 0 <= k < r.value ==> towers[k].id != id.value
    decreases |towers|
  {
    if id.None? || |towers| == 0 then None
    else if towers[0].id == id.value then Some(0)
    else
      var rest := SelectedIndex(towers[1..], id);
      if rest.None? then None else Some(rest.value + 1)
  }

  /** A level-1 tower of a kind on a cell, with its stats copied from towerStats. */
  function NewTower(id: nat, kind: Towers.TowerKind, cell: Cell): (t: Tower)
    ensures t.level == 1 && t.kind == kind && t.baseCost == Towers.Base(kind).cost && t.cooldown == 0.0
    ensures At(t, cell) && t.id == id && t.attackSpeed > 0.0
  {
    var base := Towers.Base(kind);
    var stats := Towers.TowerStats(base, 1);
    Tower(id, kind, 1, base.cost, stats.range, stats.damage, stats.attackSpeed, stats.slowPct,
          stats.slowDuration, stats.splashRadius, cell.x, cell.y, 0.0)
  }

  /** The kind the build selector points at: buildOrder[buildIndex % 3], none for a negative remainder. */
  function SelectedKind(buildIndex: int): (r: Option<Towers.TowerKind>)
    ensures r.Some? <==> buildIndex >= 0 || JsNumber.Rem(buildIndex, 3) == 0
    ensures buildIndex >= 0 ==> r == Some(Towers.BuildOrder[buildIndex % 3])
  {
    var i := JsNumber.Rem(buildIndex, |Towers.BuildOrder|);
    if i < 0 then None else Some(Towers.BuildOrder[i])
  }

  /**
   * handleCellClick: clicking a tower selects it. Otherwise a tower of the
   * selected kind is built when the cell is buildable and affordable: its
   * cost is paid, the selection is cleared and the action counted.
   */
  function HandleCellClick(s: State, cell: Cell): (r: State)
    ensures TowerAt(s.towers, cell).Some? ==>
              r == s.(selection := s.selection.(towerId := Some(s.towers[TowerAt(s.towers, cell).value].id)))
    ensures TowerAt(s.towers, cell).None? && (!Buildable(s.buildable, cell) || SelectedKind(s.selection.buildIndex).None?) ==> r == s
    ensures TowerAt(s.towers, cell).None? && Buildable(s.buildable, cell) && SelectedKind(s.selection.buildIndex).Some? ==>
              var kind := SelectedKind(s.selection.buildIndex).value;
              var cost := Towers.Base(kind).cost;
              && (s.player.money < cost ==> r == s)
              && (s.player.money >= cost ==>
                    && r.player.money == s.player.money - cost && r.player.money >= 0
                    && r.towers == s.towers + [NewTower(s.nextId, kind, cell)]
                    && r.nextId == s.nextId + 1
                    && r.selection == s.selection.(towerId := None)
                    && r.stats.actionsCount == s.stats.actionsCount + 1)
    ensures |r.towers| == |s.towers| || |r.towers| == |s.towers| + 1
    ensures r.phase == s.phase && r.monsters == s.monsters && r.wave == s.wave && r.path == s.path
    ensures r.buildable == s.buildable && r.player.hp == s.player.hp && r.summary == s.summary
  {
    match TowerAt(s.towers, cell)
    case Some(k) => s.(selection := s.selection.(towerId := Some(s.towers[k].id)))
    case None =>
      if !Buildable(s.buildable, cell) then s
      else
        match SelectedKind(s.selection.buildIndex)
        case None => s
        case Some(kind) =>
          var cost := Towers.Base(kind).cost;
          if s.player.money < cost then s
          else
            s.(player := s.player.(money := s.player.money - cost),
               towers := s.towers + [NewTower(s.nextId, kind, cell)],
               nextId := s.nextId + 1,
               selection := s.selection.(towerId := None),
               stats := s.stats.(actionsCount := s.stats.actionsCount + 1))
  }

  /** setNextTower: a known kind becomes the selected build kind; anything else is ignored. */
  function SetNextTower(s: State, name: string): (r: State)
    ensures Towers.IndexOfKind(name) == -1 ==> r == s
    ensures Towers.IndexOfKind(name) >= 0 ==>
              && r == s.(selection := s.selection.(buildIndex := r.selection.buildIndex))
              && SelectedKind(r.selection.buildIndex).Some?
              && Towers.KindName(SelectedKind(r.selection.buildIndex).value) == name
  {
    var i := Towers.IndexOfKind(name);
    if i == -1 then s else s.(selection := s.selection.(buildIndex := i))
  }

  /**
   * upgradeSelected: the selected tower below level 3 goes up one level when
   * the upgrade is affordable, paying the upgrade price and taking the stats
   * of its kind at the new level.
   */
  function UpgradeSelected(s: State): (r: State)
    ensures SelectedIndex(s.towers, s.selection.towerId).None? ==> r == s
    ensures SelectedIndex(s.towers, s.selection.towerId).Some? ==>
              var k := SelectedIndex(s.towers, s.selection.towerId).value;
              var t := s.towers[k];
              var cost := Towers.UpgradeCost(t.baseCost, t.level + 1);
              && (t.level >= 3 || cost.None? || s.player.money < cost.value ==> r == s)
              && (t.level < 3 && cost.Some? && s.player.money >= cost.value ==>
                    && t.level + 1 in {2, 3}
                    && r.player.money == s.player.money - 2 * t.baseCost && r.player.money >= 0
                    && |r.towers| == |s.towers| && r.towers == s.towers[k := r.towers[k]]
                    && r.towers[k].level == t.level + 1 && r.towers[k].id == t.id && At(r.towers[k], Cell(t.x, t.y))
                    && r.towers[k].damage == Towers.TowerStats(Towers.Base(t.kind), t.level + 1).damage
                    && r.stats.actionsCount == s.stats.actionsCount + 1)
    ensures r.phase == s.phase && r.monsters == s.monsters && r.wave == s.wave && r.path == s.path
    ensures r.buildable == s.buildable && r.player.hp == s.player.hp && r.selection == s.selection && r.nextId == s.nextId
  {
    match SelectedIndex(s.towers, s.selection.towerId)
    case None => s
    case Some(k) =>
      var t := s.towers[k];
      if t.level >= 3 then s
      else
        var next := t.level + 1;
        match Towers.UpgradeCost(t.baseCost, next)
        case None => s
        case Some(cost) =>
          if s.player.money < cost then s
          else
            var stats := Towers.TowerStats(Towers.Base(t.kind), next);
            var upgraded := t.(level := next, range := stats.range, damage := stats.damage,
                               attackSpeed := stats.attackSpeed, slowPct := stats.slowPct,
                               slowDuration := stats.slowDuration, splashRadius := stats.splashRadius);
            s.(player := s.player.(money := s.player.money - cost),
               towers := s.towers[k := upgraded],
               stats := s.stats.(actionsCount := s.stats.actionsCount + 1))
  }

  /** The sale price: half of what the tower has absorbed, rounded down. */
  function Refund(t: Tower): (refund: int)
    ensures 2 * refund <= Towers.TotalInvested(t.baseCost, t.level) < 2 * refund + 2
  {
    (Towers.TotalInvested(t.baseCost, t.level) as real * 0.5).Floor
  }

  /** sellSelected: the selected tower is removed for its refund and the selection is cleared. */
  function SellSelected(s: State): (r: State)
    ensures SelectedIndex(s.towers, s.selection.towerId).None? ==> r == s
    ensures SelectedIndex(s.towers, s.selection.towerId).Some? ==>
              var k := SelectedIndex(s.towers, s.selection.towerId).value;
              && r.player.money == s.player.money + Refund(s.towers[k])
              && r.towers == s.towers[..k] + s.towers[k + 1..]
              && r.selection == s.selection.(towerId := None)
              && r.stats.actionsCount == s.stats.actionsCount + 1
    ensures r.phase == s.phase && r.monsters == s.monsters && r.wave == s.wave && r.path == s.path
    ensures r.buildable == s.buildable && r.player.hp == s.player.hp && r.nextId == s.nextId
  {
    match SelectedIndex(s.towers, s.selection.towerId)
    case None => s
    case Some(k) =>
      s.(player := s.player.(money := s.player.money + Refund(s.towers[k])),
         towers := s.towers[..k] + s.towers[k + 1..],
         selection := s.selection.(towerId := None),
         stats := s.stats.(actionsCount := s.stats.actionsCount + 1))
  }

  // ---------------------------------------------------------------------------
  // What the actions keep

  /** Towers stand on buildable cells, one per cell, with distinct ids below the id counter and a level in 1..3. */
  predicate Placed(towers: seq<Tower>, mask: seq<seq<bool>>, nextId: nat) {
    && (forall k :: 0 <= k < |towers| ==> Buildable(mask, Cell(towers[k].x, towers[k].y)))
    && (forall a, b :: 0 <= a < b < |towers| ==> !At(towers[b], Cell(towers[a].x, towers[a].y)))
    && (forall a, b :: 0 <= a < b < |towers| ==> towers[a].id != towers[b].id)
    && (forall k :: 0 <= k < |towers| ==> towers[k].id < nextId)
    && (forall k :: 0 <= k < |towers| ==> 1 <= towers[k].level <= 3)
  }

  predicate TowersPlaced(s: State) {
    Placed(s.towers, s.buildable, s.nextId)
  }

  lemma AppendPlaced(towers: seq<Tower>, mask: seq<seq<bool>>, nextId: nat, t: Tower)
    requires Placed(towers, mask, nextId) && Buildable(mask, Cell(t.x, t.y))
    requires forall k :: 0 <= k < |towers| ==> !At(towers[k], Cell(t.x, t.y))
    requires t.id == nextId && t.level == 1
    ensures Placed(towers + [t], mask, nextId + 1)
  {
    var n := |towers|;
    var ts := towers + [t];
    forall a, b | 0 <= a < b < |ts| ensures !At(ts[b], Cell(ts[a].x, ts[a].y)) && ts[a].id != ts[b].id {
      if b == n {
        assert !At(towers[a], Cell(t.x, t.y));
      }
    }
  }

  lemma RemovePlaced(towers: seq<Tower>, mask: seq<seq<bool>>, nextId: nat, k: nat)
    requires Placed(towers, mask, nextId) && k < |towers|
    ensures Placed(towers[..k] + towers[k + 1..], mask, nextId)
  {
    var ts := towers[..k] + towers[k + 1..];
    assert forall j :: 0 <= j < |ts| ==> ts[j] == towers[if j < k then j else j + 1];
  }

  lemma ReplacePlaced(towers: seq<Tower>, mask: seq<seq<bool>>, nextId: nat, k: nat, t: Tower)
    requires Placed(towers, mask, nextId) && k < |towers|
    requires t.x == towers[k].x && t.y == towers[k].y && t.id == towers[k].id && 1 <= t.level <= 3
    ensures Placed(towers[k := t], mask, nextId)
  {
  }

  lemma HandleCellClickKeepsPlacement(s: State, cell: Cell)
    requires TowersPlaced(s)
    ensures TowersPlaced(HandleCellClick(s, cell))
  {
    var r := HandleCellClick(s, cell);
    if |r.towers| == |s.towers| + 1 {
      var kind := SelectedKind(s.selection.buildIndex).value;
      AppendPlaced(s.towers, s.buildable, s.nextId, NewTower(s.nextId, kind, cell));
    }
  }

  lemma UpgradeKeepsPlacement(s: State)
    requires TowersPlaced(s)
    ensures TowersPlaced(UpgradeSelected(s))
  {
    var r := UpgradeSelected(s);
    if r.towers != s.towers {
      var k := SelectedIndex(s.towers, s.selection.towerId).value;
      ReplacePlaced(s.towers, s.buildable, s.nextId, k, r.towers[k]);
    }
  }

  lemma SellKeepsPlacement(s: State)
    requires TowersPlaced(s)
    ensures TowersPlaced(SellSelected(s))
  {
    var index := SelectedIndex(s.towers, s.selection.towerId);
    if index.Some? {
      RemovePlaced(s.towers, s.buildable, s.nextId, index.value);
    }
  }

  /** The ids of placed towers are distinct, so the tower carrying the last id is the one just built. */
  lemma NewestSelected(towers: seq<Tower>, mask: seq<seq<bool>>, nextId: nat, t: Tower)
    requires Placed(towers, mask, nextId) && t.id == nextId
    ensures SelectedIndex(towers + [t], Some(nextId)) == Some(|towers|)
  {
    var r := SelectedIndex(towers + [t], Some(nextId));
    assert (towers + [t])[|towers|].id == nextId;
  }

  /** Clicking the freshly built tower selects it by its id. */
  lemma ClickSelectsNewest(s: State, cell: Cell, t: Tower)
    requires Placed(s.towers, s.buildable, s.nextId) && TowerAt(s.towers, cell).None?
    requires At(t, cell) && t.id == s.nextId
    ensures TowerAt(s.towers + [t], cell) == Some(|s.towers|)
    ensures SelectedIndex(s.towers + [t], Some(s.nextId)) == Some(|s.towers|)
  {
    assert (s.towers + [t])[|s.towers|] == t;
    NewestSelected(s.towers, s.buildable, s.nextId, t);
  }

  /**
   * Building a tower on a free cell, selecting it and selling it again puts
   * the towers back as they were and costs the build price less the refund.
   */
  lemma BuildThenSell(s: State, cell: Cell)
    requires TowersPlaced(s) && TowerAt(s.towers, cell).None? && Buildable(s.buildable, cell)
    requires SelectedKind(s.selection.buildIndex).Some?
    requires s.player.money >= Towers.Base(SelectedKind(s.selection.buildIndex).value).cost
    ensures var sold := SellSelected(HandleCellClick(HandleCellClick(s, cell), cell));
            var cost := Towers.Base(SelectedKind(s.selection.buildIndex).value).cost;
            && sold.towers == s.towers
            && sold.player.money == s.player.money - cost + cost / 2
            && sold.selection.towerId.None?
  {
    var kind := SelectedKind(s.selection.buildIndex).value;
    var t := NewTower(s.nextId, kind, cell);
    var built := HandleCellClick(s, cell);
    var n := |s.towers|;
    assert built.towers == s.towers + [t];
    ClickSelectsNewest(s, cell, t);
    var selected := HandleCellClick(built, cell);
    assert selected.towers == built.towers && selected.player == built.player;
    assert selected.selection.towerId == Some(s.nextId);
    assert selected.towers[..n] + selected.towers[n + 1..] == s.towers;
    assert Refund(t) == Towers.Base(kind).cost / 2;
  }
}
