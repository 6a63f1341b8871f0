/** One grid slot's icon renderer: which of the actor's icons it shows on the
    current page, and how the page counter advances. */
module StateIconPaging {
  import opened Arith
  import opened LayoutConfig

  /** Math.ceil(n / maxIcons): the number of pages a list of n icons needs. */
  function PageCount(n: nat, maxIcons: nat): (r: nat)
    requires maxIcons >= 1
    ensures n <= r * maxIcons < n + maxIcons
  {
    var q := (n + maxIcons - 1) / maxIcons;
    assert n + maxIcons - 1 == q * maxIcons + (n + maxIcons - 1) % maxIcons;
    q
  }

  /** Position in the icon list that the slot numbered `index` shows on page `page`. */
  function TargetIndex(index: nat, page: nat, maxIcons: nat): nat {
    index + maxIcons * page
  }

  /** The page counter after one update with a list of n icons: reset when the
      list is empty, otherwise incremented and wrapped at the page count. */
  function NextPage(page: nat, n: nat, maxIcons: nat): (r: nat)
    requires maxIcons >= 1
    ensures n == 0 ==> r == 0
    ensures n > 0 ==> r < PageCount(n, maxIcons)
    ensures n <= maxIcons ==> r == 0
  {
    if n == 0 then 0
    else if page + 1 >= PageCount(n, maxIcons) then 0
    else page + 1
  }

  /** The page counter of a slot after t updates from page 0 with a fixed list of n icons. */
  function PageAfter(n: nat, maxIcons: nat, t: nat): nat
    requires maxIcons >= 1
  {
    if t == 0 then 0 else NextPage(PageAfter(n, maxIcons, t - 1), n, maxIcons)
  }

  /** With a fixed non-empty list, the page counter runs through 0 .. PageCount - 1
      and starts over. */
  lemma {:induction false} PageCycle(n: nat, maxIcons: nat, t: nat)
    requires maxIcons >= 1 && n > 0
    ensures PageAfter(n, maxIcons, t) == t % PageCount(n, maxIcons)
  {
    var p := PageCount(n, maxIcons);
    if t == 0 {
      DivModUnique(0, p, 0, 0);
    } else {
      PageCycle(n, maxIcons, t - 1);
      DivModNext(t - 1, p);
    }
  }

  /** Within the first page cycle, the page counter equals the number of updates. */
  lemma PagesInCycle(n: nat, maxIcons: nat, t: nat)
    requires maxIcons >= 1 && t < PageCount(n, maxIcons)
    ensures PageAfter(n, maxIcons, t) == t
  {
    PageCycle(n, maxIcons, t);
    DivModUnique(t, PageCount(n, maxIcons), 0, t);
  }

  /** Over one page cycle of a fixed list of n icons, started at page 0, the icon at
      position k is shown by exactly one slot on exactly one update: slot
      k % maxIcons on update k / maxIcons. */
  lemma {:induction false} CycleShowsEachIconOnce(n: nat, maxIcons: nat, k: nat)
    requires maxIcons >= 1 && k < n
    ensures k / maxIcons < PageCount(n, maxIcons)
    ensures TargetIndex(k % maxIcons, PageAfter(n, maxIcons, k / maxIcons), maxIcons) == k
    ensures forall s: nat, t: nat ::
      (s < maxIcons && t < PageCount(n, maxIcons) && TargetIndex(s, PageAfter(n, maxIcons, t), maxIcons) == k)
      ==> s == k % maxIcons && t == k / maxIcons
  {
    var p := PageCount(n, maxIcons);
    var q, r := k / maxIcons, k % maxIcons;
    assert k == q * maxIcons + r;
    DivBelow(k, p, maxIcons);
    PagesInCycle(n, maxIcons, q);
    forall s: nat, t: nat | s < maxIcons && t < p && TargetIndex(s, PageAfter(n, maxIcons, t), maxIcons) == k
      ensures s == r && t == q
    {
      PagesInCycle(n, maxIcons, t);
      DivModUnique(k, maxIcons, t, s);
    }
  }

  /** Sprite_StateIconChild: the renderer of one grid slot. */
  class StateIconChild {
    /** rowMax * colMax of the layout. */
    const maxIcons: nat
    const defaultOpacity: Opacity
    /** Fixed slot number (_index), -1 until the slot is numbered. */
    var index: int
    /** Page counter (_pageIndex). */
    var pageIndex: nat
    /** The base widget's position in the icon list (_animationIndex). */
    var animationIndex: int
    /** The icon identifier drawn (_iconIndex); 0 is the blank icon. */
    var icon: int
    var opacity: Opacity

    ghost predicate Valid()
      reads this
    {
      0 <= animationIndex
    }

    /** initMembers: the base widget's fields plus a not-yet-numbered slot on page 0;
        a new host sprite is fully opaque. */
    constructor (cfg: Layout)
      ensures Valid()
      ensures maxIcons == cfg.MaxIcons() && defaultOpacity == cfg.defaultOpacity
      ensures index == -1 && pageIndex == 0
      ensures animationIndex == 0 && icon == 0 && opacity == 255
    {
      maxIcons := cfg.MaxIcons();
      defaultOpacity := cfg.defaultOpacity;
      animationIndex := 0;
      icon := 0;
      opacity := 255;
      index := -1;
      pageIndex := 0;
    }

    /** setIndex: record which slot this is. */
    method SetIndex(i: nat)
      modifies this`index
      ensures index == i
    {
      index := i;
    }

    /** The inherited per-update step of the base icon widget: advance to the
        next icon of the list, wrapping at its end, or clear the icon when the
        list is empty. */
    method BaseUpdateIcon(icons: seq<int>)
      requires -1 <= animationIndex
      modifies this`animationIndex, this`icon
      ensures Valid()
      ensures |icons| == 0 ==> animationIndex == 0 && icon == 0
      ensures |icons| > 0 ==>
        animationIndex == (if old(animationIndex) + 1 < |icons| then old(animationIndex) + 1 else 0) &&
        icon == icons[animationIndex]
    {
      if |icons| > 0 {
        animationIndex := animationIndex + 1;
        if animationIndex >= |icons| {
          animationIndex := 0;
        }
        icon := icons[animationIndex];
      } else {
        animationIndex := 0;
        icon := 0;
      }
    }

    /** updateIcon: show the icon at TargetIndex(index, pageIndex) when the list
        has one there, go transparent otherwise, and move to the next page. */
    method UpdateIcon(icons: seq<int>)
      requires Valid() && maxIcons >= 1 && index >= 0
      modifies this`pageIndex, this`animationIndex, this`icon, this`opacity
      ensures Valid()
      ensures pageIndex == NextPage(old(pageIndex), |icons|, maxIcons)
      ensures |icons| > 0 ==> pageIndex < PageCount(|icons|, maxIcons)
      ensures |icons| <= maxIcons ==> pageIndex == 0
      ensures |icons| == 0 ==> animationIndex == 0 && icon == 0 && opacity == old(opacity)
      ensures |icons| > 0 ==> var t := TargetIndex(index, old(pageIndex), maxIcons);
        if t < |icons| then
          opacity == defaultOpacity && animationIndex == t && icon == icons[t]
        else
          opacity == 0 && animationIndex == old(animationIndex) && icon == old(icon)
    {
      if |icons| > 0 {
        var tmpIndex := index + maxIcons * pageIndex;
        if tmpIndex < |icons| {
          opacity := defaultOpacity;
          animationIndex := tmpIndex - 1;
          BaseUpdateIcon(icons);
        } else {
          opacity := 0;
        }
        pageIndex := pageIndex + 1;
        if pageIndex >= PageCount(|icons|, maxIcons) {
          pageIndex := 0;
        }
      } else {
        BaseUpdateIcon(icons);
        pageIndex := 0;
      }
    }
  }

  /** Two rows by two columns and five icons: page 0 shows the first four, page 1
      shows the fifth in slot 0 and leaves the other slots blank, then page 0
      comes round again. Slot 0 over three updates: */
  method FirstSlotExample() {
    var cfg := Layout(80, -105, -2, 2, 2, 2, 255, Down, Right, Horizontal);
    var icons := [10, 11, 12, 13, 14];
    assert PageCount(5, 4) == 2;
    var slot := new StateIconChild(cfg);
    slot.SetIndex(0);
    slot.UpdateIcon(icons);
    assert slot.icon == 10 && slot.opacity == 255 && slot.pageIndex == 1;
    slot.UpdateIcon(icons);
    assert slot.icon == 14 && slot.opacity == 255 && slot.pageIndex == 0;
    slot.UpdateIcon(icons);
    assert slot.icon == 10 && slot.opacity == 255 && slot.pageIndex == 1;
  }

  /** The same layout and icons, slot 3: shown, blank, shown again. */
  method LastSlotExample() {
    var cfg := Layout(80, -105, -2, 2, 2, 2, 255, Down, Right, Horizontal);
    var icons := [10, 11, 12, 13, 14];
    assert PageCount(5, 4) == 2;
    var slot := new StateIconChild(cfg);
    slot.SetIndex(3);
    slot.UpdateIcon(icons);
    assert slot.icon == 13 && slot.opacity == 255 && slot.pageIndex == 1;
    slot.UpdateIcon(icons);
    assert slot.icon == 13 && slot.opacity == 0 && slot.pageIndex == 0;
    slot.UpdateIcon(icons);
    assert slot.icon == 13 && slot.opacity == 255 && slot.pageIndex == 1;
  }

  /** With no icons the counter goes back to page 0 and the icon is cleared. */
  method EmptyListExample() {
    var cfg := Layout(80, -105, -2, 2, 2, 2, 255, Down, Right, Horizontal);
    var slot := new StateIconChild(cfg);
    slot.SetIndex(0);
    slot.UpdateIcon([10, 11, 12, 13, 14]);
    slot.UpdateIcon([]);
    assert slot.icon == 0 && slot.pageIndex == 0;
  }
}
