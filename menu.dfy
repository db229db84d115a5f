/**
 * The editor's on-screen menu (MenuFramework/Menu.cs): a column of items with
 * one focused item, moved by clamped navigation, selected by running the
 * focused item's action, and laid out by Draw. Items are values of the
 * `items` sequence that Draw reassigns; an item's action is a value of the
 * owner's command type `A`. Display text, colours and the drawing itself are
 * rendering and not modelled.
 */
module MenuFramework {
  import opened Wrappers
  import opened Geometry
  import opened MathUtility
  import opened ScreenUtility

  /** What an item is built from: its font size in pixels and the action its selection runs. */
  datatype MenuItemConfiguration<A> = MenuItemConfiguration(fontSizeInPixels: int, onSelect: A)

  /** An item: its font size, its action, whether it is drawn as focused, and its position in normalized screen units. */
  datatype MenuItem<A> = MenuItem(fontSizeInPixels: int, onSelect: A, isFocused: bool, normalizedScreenPosition: Vector2)

  /** The menu's top-left corner in pixels. */
  const MenuPosition: Vector2 := Vector2(15.0, 15.0)

  /** `new MenuItem(configuration)`: font size and action copied, not focused, at the origin. */
  function NewMenuItem<A>(configuration: MenuItemConfiguration<A>): (item: MenuItem<A>)
    ensures item.fontSizeInPixels == configuration.fontSizeInPixels && item.onSelect == configuration.onSelect
    ensures !item.isFocused && item.normalizedScreenPosition == Vector2(0.0, 0.0)
  {
    MenuItem(configuration.fontSizeInPixels, configuration.onSelect, false, Vector2(0.0, 0.0))
  }

  /**
   * The pixel position Draw gives the item at `index`: the menu's X, and the
   * menu's Y plus `index` times the item's height, which is its font size.
   */
  function ItemAbsolutePosition(fontSizeInPixels: int, index: nat): Vector2 {
    Vector2(MenuPosition.x, MenuPosition.y + (fontSizeInPixels as real) * (index as real))
  }

  /** The items as a visible Draw leaves them: flags from the focus, positions from the layout. */
  function Drawn<A>(items: seq<MenuItem<A>>, focused: Option<nat>, resolution: Vector2): (drawn: seq<MenuItem<A>>)
    requires IsProperResolution(resolution)
    ensures |drawn| == |items|
  {
    seq(|items|, i requires 0 <= i < |items| =>
      items[i].(isFocused := focused == Some(i),
                normalizedScreenPosition := GetNormalizedPosition(ItemAbsolutePosition(items[i].fontSizeInPixels, i), resolution)))
  }

  /** After a visible Draw, exactly the focused item is marked focused; with no focus, none is. */
  lemma DrawnMarksOnlyFocused<A>(items: seq<MenuItem<A>>, focused: Option<nat>, resolution: Vector2)
    requires IsProperResolution(resolution)
    ensures var drawn := Drawn(items, focused, resolution);
      (forall i :: 0 <= i < |drawn| ==> (drawn[i].isFocused <==> focused == Some(i))) &&
      (forall i, j :: 0 <= i < |drawn| && 0 <= j < |drawn| && drawn[i].isFocused && drawn[j].isFocused ==> i == j)
  {
  }

  /**
   * After a visible Draw, item `i` sits at pixel (15, 15 + height * i), and
   * everything but its focus flag and position is kept.
   */
  lemma DrawnLayout<A>(items: seq<MenuItem<A>>, focused: Option<nat>, resolution: Vector2, i: nat)
    requires IsProperResolution(resolution) && i < |items|
    ensures var drawn := Drawn(items, focused, resolution);
      GetAbsolutePosition(drawn[i].normalizedScreenPosition, resolution) == ItemAbsolutePosition(items[i].fontSizeInPixels, i) &&
      drawn[i].fontSizeInPixels == items[i].fontSizeInPixels && drawn[i].onSelect == items[i].onSelect
  {
    AbsoluteAfterNormalize(ItemAbsolutePosition(items[i].fontSizeInPixels, i), resolution);
  }

  class Menu<A> {
    var items: seq<MenuItem<A>>
    /** The index of `_focusedMenuItem` in the item list, or None for null. */
    var focused: Option<nat>
    var isVisible: bool

    /** The focus names an item, and there is one exactly when the menu has items. */
    ghost predicate Valid()
      reads this`items, this`focused
    {
      (focused.Some? ==> focused.value < |items|) && (focused.None? <==> items == [])
    }

    /** One item per configuration, in order; the first one (if any) is focused; hidden. */
    constructor (configurations: seq<MenuItemConfiguration<A>>)
      ensures Valid() && !isVisible
      ensures |items| == |configurations|
      ensures forall i :: 0 <= i < |items| ==> items[i] == NewMenuItem(configurations[i])
      ensures focused == if configurations == [] then None else Some(0)
    {
      items := [];
      focused := None;
      isVisible := false;
      new;
      var i := 0;
      while i < |configurations|
        invariant 0 <= i <= |configurations|
        invariant !isVisible
        invariant |items| == i
        invariant forall j :: 0 <= j < i ==> items[j] == NewMenuItem(configurations[j])
      {
        items := items + [NewMenuItem(configurations[i])];
        i := i + 1;
      }
      focused := if items == [] then None else Some(0);
    }

    /**
     * Moves the focus by `delta` places, clamped to the first and last item.
     * The source indexes the item list with the clamped index, which fails
     * on an empty menu, so the menu must have items.
     */
    method NavigateMenu(delta: int)
      requires Valid() && items != []
      modifies this`focused
      ensures Valid()
      ensures focused == Some(ClampInt(old(focused).value + delta, 0, |items| - 1))
    {
      var selectedMenuItemIndex := focused.value;
      focused := Some(ClampInt(selectedMenuItemIndex + delta, 0, |items| - 1));
    }

    /** The action of the focused item, to be run once, or nothing when no item is focused. */
    method SelectFocusedMenuItem() returns (action: Option<A>)
      requires Valid()
      ensures action.Some? <==> items != []
      ensures action.Some? ==> action.value == items[focused.value].onSelect
    {
      action := if focused.Some? then Some(items[focused.value].onSelect) else None;
    }

    /**
     * Does nothing while hidden; when visible, positions every item in its
     * row and marks exactly the focused one as focused.
     */
    method Draw(resolution: Vector2)
      requires Valid() && IsProperResolution(resolution)
      modifies this`items
      ensures Valid()
      ensures !isVisible ==> items == old(items)
      ensures isVisible ==> items == Drawn(old(items), focused, resolution)
    {
      if !isVisible {
        return;
      }
      ghost var original := items;
      var menuItemIndex := 0;
      while menuItemIndex < |items|
        invariant 0 <= menuItemIndex <= |items| == |original|
        invariant forall j :: 0 <= j < menuItemIndex ==> items[j] == Drawn(original, focused, resolution)[j]
        invariant forall j :: menuItemIndex <= j < |items| ==> items[j] == original[j]
      {
        var menuItem := items[menuItemIndex];
        var absoluteScreenPosition := Vector2(MenuPosition.x, MenuPosition.y + (menuItem.fontSizeInPixels as real) * (menuItemIndex as real));
        assert menuItem == original[menuItemIndex] &&
               absoluteScreenPosition == ItemAbsolutePosition(original[menuItemIndex].fontSizeInPixels, menuItemIndex);
        menuItem := menuItem.(normalizedScreenPosition := GetNormalizedPosition(absoluteScreenPosition, resolution));
        menuItem := menuItem.(isFocused := focused == Some(menuItemIndex));
        items := items[menuItemIndex := menuItem];
        menuItemIndex := menuItemIndex + 1;
      }
    }
  }

  /** Moving the focus `n` times in one direction saturates at the end of the menu in that direction. */
  function NavigateRepeatedly(index: int, delta: int, count: nat, n: nat): int
    requires count > 0
  {
    if n == 0 then index else ClampInt(NavigateRepeatedly(index, delta, count, n - 1) + delta, 0, count - 1)
  }

  /** Pressing "down" `n` times from item `i` reaches item min(i + n, count - 1); it never runs off the end. */
  lemma {:induction false} NavigateDownSaturates(index: nat, count: nat, n: nat)
    requires index < count
    ensures NavigateRepeatedly(index, 1, count, n) == if index + n < count then index + n else count - 1
  {
    if n > 0 {
      NavigateDownSaturates(index, count, n - 1);
    }
  }

  /** Pressing "up" `n` times from item `i` reaches item max(i - n, 0). */
  lemma {:induction false} NavigateUpSaturates(index: nat, count: nat, n: nat)
    requires index < count
    ensures NavigateRepeatedly(index, -1, count, n) == if index >= n then index - n else 0
  {
    if n > 0 {
      NavigateUpSaturates(index, count, n - 1);
    }
  }
}
