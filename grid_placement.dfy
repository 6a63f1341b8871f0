/** Where the status-icon slots of one actor go on the battle status window. */
module GridPlacement {
  import opened Arith
  import opened LayoutConfig

  /** One slot created by the placement loop: its creation index, its column and
      row counts from the anchor, and its absolute position. */
  datatype Slot = Slot(index: nat, xCount: nat, yCount: nat, px: int, py: int)

  /** Column and row counts of a slot, measured from the anchor. */
  datatype Cell = Cell(xCount: nat, yCount: nat)

  function XSign(a: ColumnAlign): int {
    if a == Left then -1 else 1
  }

  function YSign(a: RowAlign): int {
    if a == Up then -1 else 1
  }

  /** Extent of the outer loop: columns when filling column-first, else rows. */
  function OuterMax(cfg: Layout): nat {
    if cfg.iconsAlign == Vertical then cfg.colMax else cfg.rowMax
  }

  /** Extent of the inner loop. */
  function InnerMax(cfg: Layout): nat {
    if cfg.iconsAlign == Vertical then cfg.rowMax else cfg.colMax
  }

  /** The cell visited on outer iteration i, inner iteration j. */
  function LoopCell(cfg: Layout, i: nat, j: nat): Cell {
    if cfg.iconsAlign == Vertical then Cell(i, j) else Cell(j, i)
  }

  /** Closed form: the cell of the slot with linear index k. */
  function CellOf(cfg: Layout, k: nat): (c: Cell)
    requires k < cfg.MaxIcons()
    ensures c.xCount < cfg.colMax && c.yCount < cfg.rowMax
  {
    var inner := InnerMax(cfg);
    assert inner > 0;
    DivBelow(k, OuterMax(cfg), inner);
    LoopCell(cfg, k / inner, k % inner)
  }

  /** Position of a cell relative to the anchor (x, y) for icons of the given size. */
  function SlotFor(cfg: Layout, x: int, y: int, iconWidth: int, iconHeight: int, k: nat, c: Cell): Slot {
    Slot(k, c.xCount, c.yCount,
         x + cfg.offsetX + (iconWidth + cfg.padding) * c.xCount * XSign(cfg.colAlign),
         y + cfg.offsetY + (iconHeight + cfg.padding) * c.yCount * YSign(cfg.rowAlign))
  }

  /** Closed form: the k-th slot the placement loop creates. */
  function SlotAt(cfg: Layout, x: int, y: int, iconWidth: int, iconHeight: int, k: nat): Slot
    requires k < cfg.MaxIcons()
  {
    SlotFor(cfg, x, y, iconWidth, iconHeight, k, CellOf(cfg, k))
  }

  /** The nested loops of placeStateIcon: one slot per (outer, inner) pair, each
      numbered by the number of slots created before it. */
  method PlaceStateIcon(cfg: Layout, x: int, y: int, iconWidth: int, iconHeight: int)
    returns (slots: seq<Slot>)
    ensures |slots| == cfg.MaxIcons()
    ensures forall k :: 0 <= k < |slots| ==> slots[k] == SlotAt(cfg, x, y, iconWidth, iconHeight, k)
  {
    var outerMax := 0;
    var innerMax := 0;
    if cfg.iconsAlign == Vertical {
      outerMax := cfg.colMax;
      innerMax := cfg.rowMax;
    } else {
      outerMax := cfg.rowMax;
      innerMax := cfg.colMax;
    }
    assert outerMax * innerMax == cfg.MaxIcons();

    slots := [];
    for i := 0 to outerMax
      invariant |slots| == i * innerMax
      invariant |slots| <= cfg.MaxIcons()
      invariant forall k :: 0 <= k < |slots| ==> slots[k] == SlotAt(cfg, x, y, iconWidth, iconHeight, k)
    {
      for j := 0 to innerMax
        invariant |slots| == i * innerMax + j
        invariant |slots| <= cfg.MaxIcons()
        invariant forall k :: 0 <= k < |slots| ==> slots[k] == SlotAt(cfg, x, y, iconWidth, iconHeight, k)
      {
        var xCount := 0;
        var yCount := 0;
        if cfg.iconsAlign == Vertical {
          xCount := i;
          yCount := j;
        } else {
          xCount := j;
          yCount := i;
        }

        var xPosNeg := 1;
        if cfg.colAlign == Left {
          xPosNeg := -1;
        }
        var yPosNeg := 1;
        if cfg.rowAlign == Up {
          yPosNeg := -1;
        }
        var tmpX := x + cfg.offsetX + (iconWidth + cfg.padding) * xCount * xPosNeg;
        var tmpY := y + cfg.offsetY + (iconHeight + cfg.padding) * yCount * yPosNeg;

        IndexBelow(i, j, outerMax, innerMax);
        DivModUnique(|slots|, innerMax, i, j);
        slots := slots + [Slot(|slots|, xCount, yCount, tmpX, tmpY)];
      }
      assert (i + 1) * innerMax == i * innerMax + innerMax;
    }
  }

  /** The linear index the placement loop gives to a cell. */
  function CellIndex(cfg: Layout, c: Cell): nat {
    if cfg.iconsAlign == Vertical then c.xCount * cfg.rowMax + c.yCount
    else c.yCount * cfg.colMax + c.xCount
  }

  /** Every cell of the colMax-by-rowMax grid is the cell of exactly one slot,
      whichever way the icons are aligned. */
  lemma GridCoversEachCellOnce(cfg: Layout, c: Cell)
    requires c.xCount < cfg.colMax && c.yCount < cfg.rowMax
    ensures CellIndex(cfg, c) < cfg.MaxIcons()
    ensures CellOf(cfg, CellIndex(cfg, c)) == c
    ensures forall k: nat :: k < cfg.MaxIcons() && CellOf(cfg, k) == c ==> k == CellIndex(cfg, c)
  {
    var k := CellIndex(cfg, c);
    var inner := InnerMax(cfg);
    var i, j := if cfg.iconsAlign == Vertical then c.xCount else c.yCount,
                if cfg.iconsAlign == Vertical then c.yCount else c.xCount;
    assert k == i * inner + j;
    IndexBelow(i, j, OuterMax(cfg), inner);
    assert OuterMax(cfg) * inner == cfg.MaxIcons();
    DivModUnique(k, inner, i, j);
    forall k': nat | k' < cfg.MaxIcons() && CellOf(cfg, k') == c
      ensures k' == k
    {
      assert k' == (k' / inner) * inner + k' % inner;
    }
  }

  /** Two different slots never share a cell. */
  lemma CellOfInjective(cfg: Layout, k1: nat, k2: nat)
    requires k1 < cfg.MaxIcons() && k2 < cfg.MaxIcons() && k1 != k2
    ensures CellOf(cfg, k1) != CellOf(cfg, k2)
  {
    var c := CellOf(cfg, k1);
    GridCoversEachCellOnce(cfg, c);
  }

  /** When an icon plus its padding has a non-zero extent in both directions,
      the rowMax * colMax slots lie at pairwise distinct positions. */
  lemma SlotPositionsDistinct(cfg: Layout, x: int, y: int, iconWidth: int, iconHeight: int, k1: nat, k2: nat)
    requires iconWidth + cfg.padding != 0 && iconHeight + cfg.padding != 0
    requires k1 < cfg.MaxIcons() && k2 < cfg.MaxIcons() && k1 != k2
    ensures var s1, s2 := SlotAt(cfg, x, y, iconWidth, iconHeight, k1), SlotAt(cfg, x, y, iconWidth, iconHeight, k2);
      (s1.px, s1.py) != (s2.px, s2.py)
  {
    var c1, c2 := CellOf(cfg, k1), CellOf(cfg, k2);
    CellOfInjective(cfg, k1, k2);
    if c1.xCount != c2.xCount {
      ScaleInjective(iconWidth + cfg.padding, XSign(cfg.colAlign), c1.xCount, c2.xCount);
    } else {
      ScaleInjective(iconHeight + cfg.padding, YSign(cfg.rowAlign), c1.yCount, c2.yCount);
    }
  }

  lemma ScaleInjective(step: int, sign: int, a: int, b: int)
    requires step != 0 && (sign == 1 || sign == -1) && a != b
    ensures step * a * sign != step * b * sign
  {
    assert step * a * sign - step * b * sign == step * (a - b) * sign;
  }

  /** Consecutive slots of one outer group differ by one icon step along the
      fill direction and not at all across it: down a column for 縦, along a
      row for 横. */
  lemma NeighbourSlotStep(cfg: Layout, x: int, y: int, iconWidth: int, iconHeight: int, k: nat)
    requires k + 1 < cfg.MaxIcons() && (k + 1) % InnerMax(cfg) != 0
    ensures var s, t := SlotAt(cfg, x, y, iconWidth, iconHeight, k), SlotAt(cfg, x, y, iconWidth, iconHeight, k + 1);
      if cfg.iconsAlign == Vertical then
        t.px == s.px && t.py == s.py + (iconHeight + cfg.padding) * YSign(cfg.rowAlign)
      else
        t.py == s.py && t.px == s.px + (iconWidth + cfg.padding) * XSign(cfg.colAlign)
  {
    var inner := InnerMax(cfg);
    var i, j := k / inner, k % inner;
    assert k == i * inner + j;
    DivModNext(k, inner);
    var s := SlotAt(cfg, x, y, iconWidth, iconHeight, k);
    assert CellOf(cfg, k + 1) == LoopCell(cfg, i, j + 1);
    var step := if cfg.iconsAlign == Vertical then iconHeight + cfg.padding else iconWidth + cfg.padding;
    var sign := if cfg.iconsAlign == Vertical then YSign(cfg.rowAlign) else XSign(cfg.colAlign);
    assert step * (j + 1) * sign == step * j * sign + step * sign;
  }

  /** The default parameters (OffsetX -105, OffsetY -2, Padding 2, 3 rows, 4
      columns, 下, 右, 横) at anchor (100, 100) with 32-pixel icons. */
  lemma DefaultLayoutExample()
    ensures var cfg := Layout(80, -105, -2, 2, 3, 4, 255, Down, Right, Horizontal);
      && SlotAt(cfg, 100, 100, 32, 32, 0) == Slot(0, 0, 0, -5, 98)
      && SlotAt(cfg, 100, 100, 32, 32, 1) == Slot(1, 1, 0, 29, 98)
      && SlotAt(cfg, 100, 100, 32, 32, 4) == Slot(4, 0, 1, -5, 132)
  {
  }
}
