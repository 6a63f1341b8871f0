/** The plugin's load-once layout parameters, as an explicit value. */
module LayoutConfig {

  /** RowAlign: rows grow upward (上) or downward (下) from the anchor. */
  datatype RowAlign = Up | Down

  /** ColumnAlign: columns grow leftward (左) or rightward (右) from the anchor. */
  datatype ColumnAlign = Left | Right

  /** IconsAlign: icons fill a column first (縦) or a row first (横). */
  datatype IconsAlign = Vertical | Horizontal

  /** An opacity value of the host sprite; DefaultOpacity is declared in 0..255. */
  type Opacity = x: int | 0 <= x <= 255

  datatype Layout = Layout(
    changeSpan: nat,
    offsetX: int,
    offsetY: int,
    padding: int,
    rowMax: nat,
    colMax: nat,
    defaultOpacity: Opacity,
    rowAlign: RowAlign,
    colAlign: ColumnAlign,
    iconsAlign: IconsAlign)
  {
    /** Number of grid slots, which is also the number of icons on one page. */
    function MaxIcons(): nat {
      rowMax * colMax
    }
  }
}
