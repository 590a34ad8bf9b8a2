/** The health and armor bars of the wolf inventory screen: a row-wrapped strip of
    9x9 icons, each standing for two points of the stat it shows. */
module StatBar {
  import opened JavaInt
  import opened Drawing

  /** Icons per row. */
  const RowCapacity := 10
  /** Points covered by one full row; added to the comparison for every row. */
  const RowPointStep := 20
  /** Hard cap on the number of icons, whatever the maximum. */
  const MaxSlots := 30
  /** Width and height of one icon sprite. */
  const IconSize := 9
  /** Horizontal distance between neighbouring icons. */
  const SlotPitch := 8

  /** The background, full and half sprites of one bar in the icon atlas. */
  datatype BarSprites = BarSprites(empty: Sprite, full: Sprite, half: Sprite)

  const HealthSprites := BarSprites(Sprite(16, 0), Sprite(52, 0), Sprite(61, 0))
  const ArmorSprites := BarSprites(Sprite(16, 9), Sprite(34, 9), Sprite(25, 9))

  predicate Distinct(sp: BarSprites) {
    sp.empty != sp.full && sp.empty != sp.half && sp.full != sp.half
  }

  /** Number of icon slots for a bar whose maximum is `max`: the source computes
      `(int) Math.min((max + 0.5F) / 2, 30)`, i.e. the quotient `(2 max + 1) / 4`
      truncated toward zero and capped at 30. It is a floor, not a ceiling. */
  function SlotCount(max: int): (n: int)
    ensures 0 <= max ==> n == Min(max / 2, MaxSlots)
    ensures max < 0 ==> n <= 0
  {
    Min(TruncDiv(2 * max + 1, 4), MaxSlots)
  }

  /** The number of icons actually drawn: the row loop runs only while the count is positive. */
  function Drawn(max: int): (n: nat)
    ensures n <= MaxSlots
    ensures 0 <= max ==> n == Min(max / 2, MaxSlots)
  {
    if SlotCount(max) < 0 then 0 else SlotCount(max)
  }

  /** One icon position: the column index within its row (the source's `row`
      variable) and the row's point offset (the source's `columnOffset`). */
  datatype Slot = Slot(col: int, columnOffset: int)

  /** The stat point whose presence makes this slot's icon at least half filled. */
  function Point(s: Slot): int {
    2 * s.col + 1 + s.columnOffset
  }

  /** Screen x of column `col`; it does not depend on the row. */
  function ColumnX(xSize: int, col: int): int {
    TruncDiv(xSize, 2) + col * SlotPitch - 4
  }

  /** The slots of one row of `len` icons, visited from the last column down to column 0. */
  function RowSlots(len: int, columnOffset: int): (r: seq<Slot>)
    ensures |r| == if len < 0 then 0 else len
    decreases len
  {
    if len <= 0 then []
    else [Slot(len - 1, columnOffset)] + RowSlots(len - 1, columnOffset)
  }

  /** Position `p` of a row holds column `len - 1 - p`: columns are visited in descending order. */
  lemma {:induction false} RowSlotsAt(len: int, columnOffset: int, p: int)
    requires 0 <= p < len
    ensures RowSlots(len, columnOffset)[p] == Slot(len - 1 - p, columnOffset)
    decreases len
  {
    if p > 0 {
      RowSlotsAt(len - 1, columnOffset, p - 1);
    }
  }

  /** The slots of the rows still to draw when `remaining` icons are left and the
      current row's point offset is `columnOffset`. */
  function SlotsFrom(remaining: int, columnOffset: int): (r: seq<Slot>)
    ensures |r| == if remaining < 0 then 0 else remaining
    decreases remaining
  {
    if remaining <= 0 then []
    else
      var len := Min(remaining, RowCapacity);
      RowSlots(len, columnOffset) + SlotsFrom(remaining - len, columnOffset + RowPointStep)
  }

  /** All slots of a bar with maximum `max`, in drawing order. */
  function Slots(max: int): seq<Slot> {
    SlotsFrom(SlotCount(max), 0)
  }

  function Blit(x: int, y: int, s: Sprite): Draw {
    Draw(x, y, s.u, s.v, IconSize, IconSize)
  }

  /** The blits for one slot: its background first, then the full sprite when the
      stat goes beyond the slot's point, or the half sprite when it stops exactly on it. */
  function SlotDraws(sp: BarSprites, xSize: int, y: int, total: int, s: Slot): (r: seq<Draw>)
    ensures 1 <= |r| <= 2
    ensures r[0] == Blit(ColumnX(xSize, s.col), y, sp.empty)
  {
    var x := ColumnX(xSize, s.col);
    [Blit(x, y, sp.empty)]
    + (if Point(s) < total then [Blit(x, y, sp.full)] else [])
    + (if Point(s) == total then [Blit(x, y, sp.half)] else [])
  }

  /** What one slot shows: all its blits sit on its column and row and use only
      the bar's sprites; the background is drawn once, the full sprite exactly
      when the stat goes beyond the slot's point, the half sprite exactly when it
      stops on that point, and never both. */
  lemma SlotSprites(sp: BarSprites, xSize: int, y: int, total: int, s: Slot)
    ensures var r := SlotDraws(sp, xSize, y, total, s);
      && (forall i :: 0 <= i < |r| ==> r[i].x == ColumnX(xSize, s.col) && r[i].y == y)
      && (forall i :: 0 <= i < |r| ==> Uses(r[i], sp.empty) || Uses(r[i], sp.full) || Uses(r[i], sp.half))
      && (Distinct(sp) ==> CountUses(r, sp.empty) == 1)
      && (Distinct(sp) ==> (CountUses(r, sp.full) == 1 <==> Point(s) < total))
      && (Distinct(sp) ==> (CountUses(r, sp.half) == 1 <==> Point(s) == total))
      && (Distinct(sp) ==> CountUses(r, sp.full) + CountUses(r, sp.half) <= 1)
  {
  }

  function Render(sp: BarSprites, xSize: int, y: int, total: int, slots: seq<Slot>): seq<Draw>
    decreases |slots|
  {
    if |slots| == 0 then []
    else SlotDraws(sp, xSize, y, total, slots[0]) + Render(sp, xSize, y, total, slots[1..])
  }

  /** Every blit of a bar whose maximum is `max` and whose current value is `total`,
      drawn on the row `y`. */
  function BarDraws(sp: BarSprites, xSize: int, y: int, total: int, max: int): (ds: seq<Draw>)
    ensures forall d :: d in ds ==>
              d.y == y && exists c :: 0 <= c < RowCapacity && d.x == ColumnX(xSize, c)
  {
    SlotColumns(max);
    RenderPlacement(sp, xSize, y, total, Slots(max));
    Render(sp, xSize, y, total, Slots(max))
  }

  lemma {:induction false} RenderAppend(sp: BarSprites, xSize: int, y: int, total: int, a: seq<Slot>, b: seq<Slot>)
    ensures Render(sp, xSize, y, total, a + b) == Render(sp, xSize, y, total, a) + Render(sp, xSize, y, total, b)
    decreases |a|
  {
    if |a| == 0 {
      assert a + b == b;
    } else {
      assert (a + b)[0] == a[0];
      assert (a + b)[1..] == a[1..] + b;
      RenderAppend(sp, xSize, y, total, a[1..], b);
    }
  }

  /** Moving ten positions along the drawing order moves one row down and keeps the place within the row. */
  lemma RowStep(p: nat)
    ensures p < RowCapacity ==> p / RowCapacity == 0 && p % RowCapacity == p
    ensures p >= RowCapacity ==> (p - RowCapacity) / RowCapacity == p / RowCapacity - 1
    ensures p >= RowCapacity ==> (p - RowCapacity) % RowCapacity == p % RowCapacity
  {
  }

  /** Slot `p` of the drawing order lies in row `p / 10`, whose point offset is
      `20 * (p / 10)`, and within that row columns run from the last one down:
      the row's length is whatever is left, at most 10. */
  lemma {:induction false} SlotsFromAt(remaining: int, columnOffset: int, p: int)
    requires 0 <= p < remaining
    ensures SlotsFrom(remaining, columnOffset)[p]
         == Slot(Min(remaining - RowCapacity * (p / RowCapacity), RowCapacity) - 1 - p % RowCapacity,
                 columnOffset + RowPointStep * (p / RowCapacity))
    decreases remaining
  {
    var len := Min(remaining, RowCapacity);
    var row := RowSlots(len, columnOffset);
    var rest := SlotsFrom(remaining - len, columnOffset + RowPointStep);
    assert SlotsFrom(remaining, columnOffset) == row + rest;
    if p < len {
      RowStep(p);
      assert SlotsFrom(remaining, columnOffset)[p] == row[p];
      RowSlotsAt(len, columnOffset, p);
    } else {
      assert len == RowCapacity;
      RowStep(p);
      assert SlotsFrom(remaining, columnOffset)[p] == rest[p - len];
      SlotsFromAt(remaining - len, columnOffset + RowPointStep, p - len);
    }
  }

  /** Rows are not shifted: every blit of a bar sits on the bar's row `y`, in one
      of the ten columns of the first row, so later rows overdraw earlier ones. */
  lemma {:induction false} RenderPlacement(sp: BarSprites, xSize: int, y: int, total: int, slots: seq<Slot>)
    requires forall i :: 0 <= i < |slots| ==> 0 <= slots[i].col < RowCapacity
    ensures forall d :: d in Render(sp, xSize, y, total, slots) ==>
              d.y == y && exists c :: 0 <= c < RowCapacity && d.x == ColumnX(xSize, c)
    decreases |slots|
  {
    if |slots| > 0 {
      var head := SlotDraws(sp, xSize, y, total, slots[0]);
      SlotSprites(sp, xSize, y, total, slots[0]);
      RenderPlacement(sp, xSize, y, total, slots[1..]);
      forall d | d in head
        ensures d.y == y && exists c :: 0 <= c < RowCapacity && d.x == ColumnX(xSize, c)
      {
        var i :| 0 <= i < |head| && head[i] == d;
        assert d.x == ColumnX(xSize, slots[0].col);
      }
    }
  }

  /** Every slot of a bar lies in one of the ten columns of a row. */
  lemma SlotColumns(max: int)
    ensures forall i :: 0 <= i < |Slots(max)| ==> 0 <= Slots(max)[i].col < RowCapacity
  {
    var slots := Slots(max);
    forall i | 0 <= i < |slots|
      ensures 0 <= slots[i].col < RowCapacity
    {
      SlotsFromAt(SlotCount(max), 0, i);
    }
  }

  /** The slot with index `k` (counting from the first slot of the bar) has point
      `2 * k + 1`: it is below `total` exactly for the first `total / 2` indices and
      equal to it only for an odd `total`, at index `(total - 1) / 2`. */
  lemma PointComparison(k: int, total: int)
    ensures 2 * k + 1 < total <==> k < total / 2
    ensures 2 * k + 1 == total <==> total % 2 == 1 && k == (total - 1) / 2
  {
  }

  /** Counts of the three sprites over one row of `len` slots whose point offset is `2 * lo`. */
  lemma {:induction false} RowCounts(sp: BarSprites, xSize: int, y: int, total: int, len: nat, lo: int)
    requires Distinct(sp)
    ensures CountUses(Render(sp, xSize, y, total, RowSlots(len, 2 * lo)), sp.empty) == len
    ensures CountUses(Render(sp, xSize, y, total, RowSlots(len, 2 * lo)), sp.full)
         == Clamp(total / 2 - lo, 0, len)
    ensures CountUses(Render(sp, xSize, y, total, RowSlots(len, 2 * lo)), sp.half)
         == if total % 2 == 1 && lo <= (total - 1) / 2 < lo + len then 1 else 0
    decreases len
  {
    if len > 0 {
      var slots := RowSlots(len, 2 * lo);
      var head := SlotDraws(sp, xSize, y, total, slots[0]);
      assert slots[0] == Slot(len - 1, 2 * lo);
      assert slots[1..] == RowSlots(len - 1, 2 * lo);
      assert Render(sp, xSize, y, total, slots) == head + Render(sp, xSize, y, total, slots[1..]);
      CountUsesAppend(head, Render(sp, xSize, y, total, slots[1..]), sp.empty);
      CountUsesAppend(head, Render(sp, xSize, y, total, slots[1..]), sp.full);
      CountUsesAppend(head, Render(sp, xSize, y, total, slots[1..]), sp.half);
      RowCounts(sp, xSize, y, total, len - 1, lo);
      SlotSprites(sp, xSize, y, total, slots[0]);
      PointComparison(len - 1 + lo, total);
    }
  }

  /** Drawing the remaining rows starts with drawing the first of them. */
  lemma RenderSlotsFrom(sp: BarSprites, xSize: int, y: int, total: int, remaining: int, columnOffset: int)
    requires remaining > 0
    ensures var len := Min(remaining, RowCapacity);
      Render(sp, xSize, y, total, SlotsFrom(remaining, columnOffset))
      == Render(sp, xSize, y, total, RowSlots(len, columnOffset))
       + Render(sp, xSize, y, total, SlotsFrom(remaining - len, columnOffset + RowPointStep))
  {
    var len := Min(remaining, RowCapacity);
    RenderAppend(sp, xSize, y, total, RowSlots(len, columnOffset),
                 SlotsFrom(remaining - len, columnOffset + RowPointStep));
  }

  /** Any sprite's count over the remaining rows is its count over the first row
      plus, after a full row, its count over the rows after it. */
  lemma RowsCountSplit(sp: BarSprites, xSize: int, y: int, total: int, remaining: int, lo: int, s: Sprite)
    requires remaining > 0
    ensures CountUses(Render(sp, xSize, y, total, SlotsFrom(remaining, 2 * lo)), s)
         == CountUses(Render(sp, xSize, y, total, RowSlots(Min(remaining, RowCapacity), 2 * lo)), s)
          + (if remaining <= RowCapacity then 0
             else CountUses(Render(sp, xSize, y, total, SlotsFrom(remaining - RowCapacity, 2 * (lo + RowCapacity))), s))
  {
    var len := Min(remaining, RowCapacity);
    var a := Render(sp, xSize, y, total, RowSlots(len, 2 * lo));
    var b := Render(sp, xSize, y, total, SlotsFrom(remaining - len, 2 * lo + RowPointStep));
    RenderSlotsFrom(sp, xSize, y, total, remaining, 2 * lo);
    CountUsesAppend(a, b, s);
    if remaining <= RowCapacity {
      assert b == [];
    } else {
      assert 2 * lo + RowPointStep == 2 * (lo + RowCapacity);
    }
  }

  lemma ClampSplit(x: int, a: nat, b: nat)
    ensures Clamp(x, 0, a) + Clamp(x - a, 0, b) == Clamp(x, 0, a + b)
  {
  }

  /** One background per remaining slot. */
  lemma {:induction false} RowsEmptyCount(sp: BarSprites, xSize: int, y: int, total: int, remaining: nat, lo: int)
    requires Distinct(sp)
    ensures CountUses(Render(sp, xSize, y, total, SlotsFrom(remaining, 2 * lo)), sp.empty) == remaining
    decreases remaining
  {
    if remaining > 0 {
      RowsCountSplit(sp, xSize, y, total, remaining, lo, sp.empty);
      RowCounts(sp, xSize, y, total, Min(remaining, RowCapacity), lo);
      if remaining > RowCapacity {
        RowsEmptyCount(sp, xSize, y, total, remaining - RowCapacity, lo + RowCapacity);
      }
    }
  }

  /** Full icons over the remaining slots, whose first index is `lo`. */
  lemma {:induction false} RowsFullCount(sp: BarSprites, xSize: int, y: int, total: int, remaining: nat, lo: int)
    requires Distinct(sp)
    ensures CountUses(Render(sp, xSize, y, total, SlotsFrom(remaining, 2 * lo)), sp.full)
         == Clamp(total / 2 - lo, 0, remaining)
    decreases remaining
  {
    if remaining > 0 {
      RowsCountSplit(sp, xSize, y, total, remaining, lo, sp.full);
      RowCounts(sp, xSize, y, total, Min(remaining, RowCapacity), lo);
      if remaining > RowCapacity {
        RowsFullCount(sp, xSize, y, total, remaining - RowCapacity, lo + RowCapacity);
        ClampSplit(total / 2 - lo, RowCapacity, remaining - RowCapacity);
      }
    }
  }

  /** Half icons over the remaining slots, whose first index is `lo`. */
  lemma {:induction false} RowsHalfCount(sp: BarSprites, xSize: int, y: int, total: int, remaining: nat, lo: int)
    requires Distinct(sp)
    ensures CountUses(Render(sp, xSize, y, total, SlotsFrom(remaining, 2 * lo)), sp.half)
         == if total % 2 == 1 && lo <= (total - 1) / 2 < lo + remaining then 1 else 0
    decreases remaining
  {
    if remaining > 0 {
      RowsCountSplit(sp, xSize, y, total, remaining, lo, sp.half);
      RowCounts(sp, xSize, y, total, Min(remaining, RowCapacity), lo);
      if remaining > RowCapacity {
        RowsHalfCount(sp, xSize, y, total, remaining - RowCapacity, lo + RowCapacity);
      }
    }
  }

  /** A bar shows one background icon per slot; `total / 2` of them, at most all,
      are overdrawn full; and exactly one is overdrawn half when `total` is odd
      and its last point falls inside the drawn slots. */
  lemma BarCounts(sp: BarSprites, xSize: int, y: int, total: int, max: int)
    requires Distinct(sp)
    ensures CountUses(BarDraws(sp, xSize, y, total, max), sp.empty) == Drawn(max)
    ensures CountUses(BarDraws(sp, xSize, y, total, max), sp.full) == Clamp(total / 2, 0, Drawn(max))
    ensures CountUses(BarDraws(sp, xSize, y, total, max), sp.half)
         == if total % 2 == 1 && 0 <= (total - 1) / 2 < Drawn(max) then 1 else 0
  {
    assert Slots(max) == SlotsFrom(Drawn(max), 2 * 0);
    RowsEmptyCount(sp, xSize, y, total, Drawn(max), 0);
    RowsFullCount(sp, xSize, y, total, Drawn(max), 0);
    RowsHalfCount(sp, xSize, y, total, Drawn(max), 0);
  }

  /** A full bar of 10 hearts at 19 health: nine full hearts and one half heart. */
  lemma NineteenOfTwenty(xSize: int, y: int)
    ensures CountUses(BarDraws(HealthSprites, xSize, y, 19, 20), HealthSprites.empty) == 10
    ensures CountUses(BarDraws(HealthSprites, xSize, y, 19, 20), HealthSprites.full) == 9
    ensures CountUses(BarDraws(HealthSprites, xSize, y, 19, 20), HealthSprites.half) == 1
  {
    BarCounts(HealthSprites, xSize, y, 19, 20);
  }

  /** At 20 of 20 every heart is full and none is half. */
  lemma TwentyOfTwenty(xSize: int, y: int)
    ensures CountUses(BarDraws(HealthSprites, xSize, y, 20, 20), HealthSprites.full) == 10
    ensures CountUses(BarDraws(HealthSprites, xSize, y, 20, 20), HealthSprites.half) == 0
  {
    BarCounts(HealthSprites, xSize, y, 20, 20);
  }

  /** The slot count rounds down: a maximum of 1 gives no icon at all. */
  lemma MaximumOneDrawsNothing(sp: BarSprites, xSize: int, y: int, total: int)
    ensures BarDraws(sp, xSize, y, total, 1) == []
  {
    assert SlotCount(1) == 0;
  }

  /** Because the slot count rounds down, an odd maximum loses its last point:
      a stat standing at that maximum shows every drawn icon full and no half
      icon. Above 60 it is the cap of 30 icons that hides the remaining points. */
  lemma OddMaximumHidesLastPoint(sp: BarSprites, xSize: int, y: int, max: int)
    requires Distinct(sp)
    requires 0 < max && max % 2 == 1
    ensures CountUses(BarDraws(sp, xSize, y, max, max), sp.half) == 0
    ensures CountUses(BarDraws(sp, xSize, y, max, max), sp.full) == Drawn(max)
  {
    BarCounts(sp, xSize, y, max, max);
  }

  /** Drawing a row of `col + 1` icons starts with column `col`. */
  lemma RenderRowStep(sp: BarSprites, xSize: int, y: int, total: int, col: nat, columnOffset: int)
    ensures Render(sp, xSize, y, total, RowSlots(col + 1, columnOffset))
         == SlotDraws(sp, xSize, y, total, Slot(col, columnOffset))
          + Render(sp, xSize, y, total, RowSlots(col, columnOffset))
  {
    var slots := RowSlots(col + 1, columnOffset);
    assert slots[0] == Slot(col, columnOffset) && slots[1..] == RowSlots(col, columnOffset);
  }

  /** The source's inner loop: one row of `rowIterate` icons, columns from the
      last down to 0. */
  method DrawRow(sp: BarSprites, xSize: int, y: int, total: int, rowIterate: int, columnOffset: int)
    returns (draws: seq<Draw>)
    requires rowIterate >= 0
    ensures draws == Render(sp, xSize, y, total, RowSlots(rowIterate, columnOffset))
  {
    draws := [];
    var row := rowIterate - 1;
    while row >= 0
      invariant row < rowIterate
      invariant -1 <= row
      invariant draws + Render(sp, xSize, y, total, RowSlots(row + 1, columnOffset))
             == Render(sp, xSize, y, total, RowSlots(rowIterate, columnOffset))
      decreases row
    {
      RenderRowStep(sp, xSize, y, total, row, columnOffset);
      draws := draws + SlotDraws(sp, xSize, y, total, Slot(row, columnOffset));
      row := row - 1;
    }
    assert RowSlots(0, columnOffset) == [];
  }

  /** The source's outer loop: rows of at most ten icons while icons remain, the
      point offset growing by 20 per row. */
  method DrawStatBar(sp: BarSprites, xSize: int, y: int, total: int, max: int) returns (draws: seq<Draw>)
    ensures draws == BarDraws(sp, xSize, y, total, max)
    ensures Distinct(sp) ==> CountUses(draws, sp.empty) == Drawn(max)
  {
    draws := [];
    var rowOffset := SlotCount(max);
    var columnOffset := 0;
    ghost var layout := Render(sp, xSize, y, total, Slots(max));
    while rowOffset > 0
      invariant draws + Render(sp, xSize, y, total, SlotsFrom(rowOffset, columnOffset)) == layout
      decreases rowOffset
    {
      var rowIterate := Min(rowOffset, RowCapacity);
      RenderSlotsFrom(sp, xSize, y, total, rowOffset, columnOffset);
      rowOffset := rowOffset - rowIterate;
      var rowDraws := DrawRow(sp, xSize, y, total, rowIterate, columnOffset);
      draws := draws + rowDraws;
      columnOffset := columnOffset + RowPointStep;
    }
    assert draws == layout == BarDraws(sp, xSize, y, total, max);
    if Distinct(sp) {
      BarCounts(sp, xSize, y, total, max);
    }
  }
}
