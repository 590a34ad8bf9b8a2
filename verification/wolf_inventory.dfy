/** The wolf inventory screen: panel placement, the drop-chest button, the
    background badges and the placement of the health and armor bars. */
module WolfInventory {
  import opened JavaInt
  import opened Drawing
  import opened StatBar

  /** Window size and the panel's fixed size (`xSize`, `ySize`). */
  datatype Screen = Screen(width: int, height: int, xSize: int, ySize: int)

  /** What the screen reads from the wolf each frame. `health` is the already
      rounded-up current health, `maxHealth` the maximum health. */
  datatype Wolf = Wolf(entityId: int, health: int, maxHealth: int, totalArmor: int,
                       hasArmor: bool, hasChest: bool)

  /** The two display switches of the mod's configuration. */
  datatype Config = Config(healthDisplay: bool, armorDisplay: bool)

  /** Commands the screen hands to its host. */
  datatype Command = DropChest(entityId: int) | CloseScreen

  /** The drop-chest button's hot zone, in panel-local pixels: 16 by 16 from (8, 37). */
  const ButtonLeft := 8
  const ButtonTop := 37
  const ButtonSize := 16

  /** Atlas rows of the drop-chest button sprite, idle and hovered. */
  const ButtonRow := 166
  const ButtonHoverRow := 184

  /** Left edge of the panel: the window centre less half the panel, as Java's
      truncating division computes it. The panel is centred to within one pixel. */
  function OriginX(sc: Screen): (x: int)
    ensures -1 <= (sc.width - sc.xSize) - 2 * x <= 1
    ensures sc.width >= sc.xSize ==> 0 <= x && x + sc.xSize + x <= sc.width
    ensures sc.width < sc.xSize ==> x <= 0 && sc.width <= x + sc.xSize + x
  {
    TruncDiv(sc.width - sc.xSize, 2)
  }

  /** Top edge of the panel, computed like `OriginX`. */
  function OriginY(sc: Screen): (y: int)
    ensures -1 <= (sc.height - sc.ySize) - 2 * y <= 1
    ensures sc.height >= sc.ySize ==> 0 <= y && y + sc.ySize + y <= sc.height
    ensures sc.height < sc.ySize ==> y <= 0 && sc.height <= y + sc.ySize + y
  {
    TruncDiv(sc.height - sc.ySize, 2)
  }

  /** The half-open hit rectangle of the drop-chest button, in panel-local pixels. */
  predicate OnDropButton(localX: int, localY: int) {
    localX >= ButtonLeft && localY >= ButtonTop
    && localX < ButtonLeft + ButtonSize && localY < ButtonTop + ButtonSize
  }

  /** A mouse press: a press on the drop-chest button sends the drop-chest command
      for this wolf and then closes the screen. Neither the mouse button nor the
      wolf's chest matters. */
  function MouseClicked(sc: Screen, wolf: Wolf, mouseX: int, mouseY: int, mouseButton: int)
    : (cmds: seq<Command>)
    ensures cmds == [] || cmds == [DropChest(wolf.entityId), CloseScreen]
    ensures cmds != [] <==>
              8 <= mouseX - OriginX(sc) < 24 && 37 <= mouseY - OriginY(sc) < 53
  {
    if OnDropButton(mouseX - OriginX(sc), mouseY - OriginY(sc)) then
      [DropChest(wolf.entityId), CloseScreen]
    else
      []
  }

  function PanelDraw(sc: Screen): Draw {
    Draw(OriginX(sc), OriginY(sc), 0, 0, sc.xSize, sc.ySize)
  }

  function ArmorBadge(sc: Screen): Draw {
    Draw(OriginX(sc) + 7, OriginY(sc) + 17, sc.xSize, 36, 18, 18)
  }

  function ChestBadge(sc: Screen): Draw {
    Draw(OriginX(sc) + 97, OriginY(sc) + 17, sc.xSize, 0, 54, 36)
  }

  /** The drop-chest button drawn at panel-local (7, 35), from atlas row `row`. */
  function ButtonDraw(sc: Screen, row: int): Draw {
    Draw(OriginX(sc) + 7, OriginY(sc) + 35, 0, row, 18, 18)
  }

  /** The background layer: the whole panel, the armor badge when the wolf wears
      armor, the chest badge when it carries a chest and, with the chest, the
      drop-chest button, highlighted while the mouse is over it. */
  function Background(sc: Screen, wolf: Wolf, mouseX: int, mouseY: int): (ds: seq<Draw>)
    ensures |ds| == 1 + (if wolf.hasArmor then 1 else 0) + (if wolf.hasChest then 2 else 0)
    ensures ds[0] == PanelDraw(sc)
    ensures ArmorBadge(sc) in ds <==> wolf.hasArmor
    ensures ChestBadge(sc) in ds <==> wolf.hasChest
    ensures wolf.hasArmor ==> ds[1] == ArmorBadge(sc)
    ensures (exists row :: ButtonDraw(sc, row) in ds) <==> wolf.hasChest
    ensures wolf.hasChest ==>
              ds[|ds| - 2] == ChestBadge(sc)
              && ds[|ds| - 1].x == OriginX(sc) + 7 && ds[|ds| - 1].y == OriginY(sc) + 35
              && (ds[|ds| - 1].v == ButtonHoverRow || ds[|ds| - 1].v == ButtonRow)
  {
    var localX := mouseX - OriginX(sc);
    var localY := mouseY - OriginY(sc);
    var row := if OnDropButton(localX, localY) then ButtonRow + 18 else ButtonRow;
    [PanelDraw(sc)]
    + (if wolf.hasArmor then [ArmorBadge(sc)] else [])
    + (if wolf.hasChest then [ChestBadge(sc), ButtonDraw(sc, row)] else [])
  }

  /** The hover highlight and the click handler use one rectangle: with a chest,
      the button is drawn from the hover row exactly when a press at the same
      mouse position would drop the chest. */
  lemma HoverAgreesWithClick(sc: Screen, wolf: Wolf, mouseX: int, mouseY: int, mouseButton: int)
    requires wolf.hasChest
    ensures var ds := Background(sc, wolf, mouseX, mouseY);
      ds[|ds| - 1].v == ButtonHoverRow <==> MouseClicked(sc, wolf, mouseX, mouseY, mouseButton) != []
  {
  }

  /** Every press that drops the chest lands on the button's picture, when it is drawn. */
  lemma ClickLandsOnButton(sc: Screen, wolf: Wolf, mouseX: int, mouseY: int, mouseButton: int)
    requires wolf.hasChest
    requires MouseClicked(sc, wolf, mouseX, mouseY, mouseButton) != []
    ensures var ds := Background(sc, wolf, mouseX, mouseY);
      Covers(ds[|ds| - 1], mouseX, mouseY) && !Covers(ArmorBadge(sc), mouseX, mouseY)
  {
  }

  predicate HealthBarShown(cfg: Config) {
    cfg.healthDisplay
  }

  predicate ArmorBarShown(cfg: Config, wolf: Wolf) {
    cfg.armorDisplay && wolf.hasArmor
  }

  /** Row of the health bar: 56, moved down 5 when no armor bar is shown beneath it. */
  function HealthBarY(cfg: Config, wolf: Wolf): (y: int)
    ensures y == 56 || y == 61
    ensures y == 61 <==> !ArmorBarShown(cfg, wolf)
  {
    if !cfg.armorDisplay || !wolf.hasArmor then 56 + 5 else 56
  }

  /** Row of the armor bar: 66, moved up 5 when health display is off. */
  function ArmorBarY(cfg: Config): (y: int)
    ensures y == 61 || y == 66
    ensures y == 61 <==> !HealthBarShown(cfg)
  {
    if !cfg.healthDisplay then 66 - 5 else 66
  }

  /** A bar shown alone sits on the middle row 61; two bars sit 10 pixels apart,
      one icon height plus a pixel, health above armor. */
  lemma BarsShareTheBand(cfg: Config, wolf: Wolf)
    ensures HealthBarShown(cfg) && !ArmorBarShown(cfg, wolf) ==> HealthBarY(cfg, wolf) == 61
    ensures !HealthBarShown(cfg) && ArmorBarShown(cfg, wolf) ==> ArmorBarY(cfg) == 61
    ensures HealthBarShown(cfg) && ArmorBarShown(cfg, wolf) ==>
              HealthBarY(cfg, wolf) + IconSize + 1 == ArmorBarY(cfg)
  {
  }

  /** The health bar's blits: all on the health row, and none when health display is off. */
  function HealthDraws(cfg: Config, wolf: Wolf, xSize: int): (ds: seq<Draw>)
    ensures forall d :: d in ds ==> d.y == HealthBarY(cfg, wolf)
    ensures !HealthBarShown(cfg) ==> ds == []
  {
    if HealthBarShown(cfg) then
      BarDraws(HealthSprites, xSize, HealthBarY(cfg, wolf), wolf.health, wolf.maxHealth)
    else []
  }

  /** The armor bar's blits: all on the armor row, and none unless armor display
      is on and the wolf wears armor. */
  function ArmorDraws(cfg: Config, wolf: Wolf, xSize: int, maxArmor: int): (ds: seq<Draw>)
    ensures forall d :: d in ds ==> d.y == ArmorBarY(cfg)
    ensures !ArmorBarShown(cfg, wolf) ==> ds == []
  {
    if ArmorBarShown(cfg, wolf) then
      BarDraws(ArmorSprites, xSize, ArmorBarY(cfg), wolf.totalArmor, maxArmor)
    else []
  }

  /** The health bar then the armor bar, each drawn only when shown; `maxArmor`
      is the armor material's vanilla maximum. Every blit of the health part lies
      on the health row and every later one on the armor row. */
  function HealthAndArmor(cfg: Config, wolf: Wolf, xSize: int, maxArmor: int): (ds: seq<Draw>)
    ensures forall i :: 0 <= i < |ds| ==>
              ds[i].y == if i < |HealthDraws(cfg, wolf, xSize)| then HealthBarY(cfg, wolf) else ArmorBarY(cfg)
  {
    var h := HealthDraws(cfg, wolf, xSize);
    var a := ArmorDraws(cfg, wolf, xSize, maxArmor);
    assert forall i :: 0 <= i < |h| ==> h[i] in h;
    assert forall i :: 0 <= i < |a| ==> a[i] in a;
    h + a
  }

  /** The two bars as a whole: the health part first, on the health row, then the
      armor part, on the armor row. */
  lemma HealthAndArmorRows(cfg: Config, wolf: Wolf, xSize: int, maxArmor: int)
    ensures HealthAndArmor(cfg, wolf, xSize, maxArmor)
         == HealthDraws(cfg, wolf, xSize) + ArmorDraws(cfg, wolf, xSize, maxArmor)
    ensures forall d :: d in HealthDraws(cfg, wolf, xSize) ==> d.y == HealthBarY(cfg, wolf)
    ensures forall d :: d in ArmorDraws(cfg, wolf, xSize, maxArmor) ==> d.y == ArmorBarY(cfg)
  {
  }

  /** A bar uses no sprite other than its own three. */
  lemma {:induction false} RenderUsesOwnSprites(sp: BarSprites, xSize: int, y: int, total: int, slots: seq<Slot>, s: Sprite)
    requires s != sp.empty && s != sp.full && s != sp.half
    ensures CountUses(Render(sp, xSize, y, total, slots), s) == 0
    decreases |slots|
  {
    if |slots| > 0 {
      var head := SlotDraws(sp, xSize, y, total, slots[0]);
      var tail := Render(sp, xSize, y, total, slots[1..]);
      SlotSprites(sp, xSize, y, total, slots[0]);
      RenderUsesOwnSprites(sp, xSize, y, total, slots[1..], s);
      CountUsesAppend(head, tail, s);
    }
  }

  /** The health part of the two bars: as many heart backgrounds as health slots
      and as many full hearts as the health total calls for, when the bar is shown. */
  lemma HealthCounts(cfg: Config, wolf: Wolf, xSize: int, maxArmor: int)
    ensures var ds := HealthAndArmor(cfg, wolf, xSize, maxArmor);
      && CountUses(ds, HealthSprites.empty)
           == (if HealthBarShown(cfg) then Drawn(wolf.maxHealth) else 0)
      && CountUses(ds, HealthSprites.full)
           == (if HealthBarShown(cfg) then Clamp(wolf.health / 2, 0, Drawn(wolf.maxHealth)) else 0)
  {
    var h := HealthDraws(cfg, wolf, xSize);
    var a := ArmorDraws(cfg, wolf, xSize, maxArmor);
    CountUsesAppend(h, a, HealthSprites.empty);
    CountUsesAppend(h, a, HealthSprites.full);
    if HealthBarShown(cfg) {
      BarCounts(HealthSprites, xSize, HealthBarY(cfg, wolf), wolf.health, wolf.maxHealth);
    }
    if ArmorBarShown(cfg, wolf) {
      RenderUsesOwnSprites(ArmorSprites, xSize, ArmorBarY(cfg), wolf.totalArmor, Slots(maxArmor), HealthSprites.empty);
      RenderUsesOwnSprites(ArmorSprites, xSize, ArmorBarY(cfg), wolf.totalArmor, Slots(maxArmor), HealthSprites.full);
    }
  }

  /** The armor part of the two bars, counted in the same way. */
  lemma ArmorCounts(cfg: Config, wolf: Wolf, xSize: int, maxArmor: int)
    ensures var ds := HealthAndArmor(cfg, wolf, xSize, maxArmor);
      && CountUses(ds, ArmorSprites.empty)
           == (if ArmorBarShown(cfg, wolf) then Drawn(maxArmor) else 0)
      && CountUses(ds, ArmorSprites.full)
           == (if ArmorBarShown(cfg, wolf) then Clamp(wolf.totalArmor / 2, 0, Drawn(maxArmor)) else 0)
  {
    var h := HealthDraws(cfg, wolf, xSize);
    var a := ArmorDraws(cfg, wolf, xSize, maxArmor);
    CountUsesAppend(h, a, ArmorSprites.empty);
    CountUsesAppend(h, a, ArmorSprites.full);
    if HealthBarShown(cfg) {
      RenderUsesOwnSprites(HealthSprites, xSize, HealthBarY(cfg, wolf), wolf.health, Slots(wolf.maxHealth), ArmorSprites.empty);
      RenderUsesOwnSprites(HealthSprites, xSize, HealthBarY(cfg, wolf), wolf.health, Slots(wolf.maxHealth), ArmorSprites.full);
    }
    if ArmorBarShown(cfg, wolf) {
      BarCounts(ArmorSprites, xSize, ArmorBarY(cfg), wolf.totalArmor, maxArmor);
    }
  }

  /** Armor display off, 6 of 10 health: the health bar alone, moved down to row 61,
      with five hearts of which three are full. */
  lemma HealthAloneWhenArmorDisplayOff(wolf: Wolf, xSize: int, maxArmor: int)
    requires wolf.health == 6 && wolf.maxHealth == 10
    ensures var cfg := Config(true, false);
      && HealthBarY(cfg, wolf) == 61
      && ArmorDraws(cfg, wolf, xSize, maxArmor) == []
      && CountUses(HealthAndArmor(cfg, wolf, xSize, maxArmor), HealthSprites.empty) == 5
      && CountUses(HealthAndArmor(cfg, wolf, xSize, maxArmor), HealthSprites.full) == 3
  {
    HealthCounts(Config(true, false), wolf, xSize, maxArmor);
  }
}
