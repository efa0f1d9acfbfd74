/** The app's left sidebar: it widens while hovered, the menu button locks it in its
    current hover state (flipping it), and the entry for the current page is highlighted. */
module ExpandableSidebar {
  import opened JsText

  datatype Item = Item(id: string, path: string, title: string)

  const Items: seq<Item> := [
    Item("discover", "/", "Discover"),
    Item("community", "/community", "Community"),
    Item("messages", "/messages", "Messages"),
    Item("audio", "/audio", "Audio Rooms"),
    Item("watch-together", "/watch-together", "Watch Together"),
    Item("saved", "/saved", "Saved")]

  /** The highlighted tab for a path: `discover` for the root, otherwise the path's first
      segment after its leading character. */
  function GetActiveTab(path: string): string {
    if path == "/" then "discover"
    else if |path| == 0 then ""
    else SplitOn(path[1..], '/')[0]
  }

  /** A path `/segment` or `/segment/...` highlights `segment`. */
  lemma ActiveTabIsFirstSegment(segment: string, rest: string)
    requires '/' !in segment && segment != ""
    ensures GetActiveTab("/" + segment) == segment
    ensures GetActiveTab("/" + segment + "/" + rest) == segment
  {
    assert ("/" + segment)[1..] == segment;
    SplitOnNone(segment, '/');
    assert ("/" + segment + "/" + rest)[1..] == segment + ['/'] + rest;
    SplitOnAfter(segment, '/', rest);
  }

  /** An item's own path highlights it. */
  lemma ItemHighlightsItself(k: nat)
    requires k < |Items|
    ensures GetActiveTab(Items[k].path) == Items[k].id
  {
    var items := Items;
    if k > 0 {
      var seg := items[k].id;
      assert items[k].path == "/" + seg;
      assert forall m :: 0 <= m < |seg| ==> seg[m] != '/';
      ActiveTabIsFirstSegment(seg, "");
    }
  }

  /** The items have different ids: their initials differ. */
  lemma ItemIdsDistinct(k: nat, j: nat)
    requires k < j < |Items|
    ensures Items[k].id != Items[j].id
  {
    var items := Items;
    var initials := "dcmaws";
    assert items[k].id[0] == initials[k] && items[j].id[0] == initials[j];
  }

  /** Opening an item's own path highlights that item, and no other. */
  lemma EachItemHighlightsItself(k: nat, j: nat)
    requires k < |Items| && j < |Items|
    ensures GetActiveTab(Items[k].path) == Items[j].id <==> k == j
  {
    ItemHighlightsItself(k);
    if k < j {
      ItemIdsDistinct(k, j);
    } else if j < k {
      ItemIdsDistinct(j, k);
    }
  }

  /** The sidebar's two flags as a value. */
  datatype Panel = Panel(expanded: bool, locked: bool)

  function Entered(p: Panel): Panel {
    if p.locked then p else p.(expanded := true)
  }

  function Left(p: Panel): Panel {
    if p.locked then p else p.(expanded := false)
  }

  function Toggled(p: Panel): Panel {
    Panel(!p.expanded, !p.locked)
  }

  /** Hovering moves an unlocked sidebar to expanded on entry and collapsed on exit, and
      never touches a locked one or the lock. */
  lemma HoverFollowsCursorUnlessLocked(p: Panel)
    ensures Entered(p).locked == p.locked && Left(p).locked == p.locked
    ensures p.locked ==> Entered(p) == p && Left(p) == p
    ensures !p.locked ==> Entered(p).expanded && !Left(p).expanded
  {
  }

  /** The menu button undoes itself, and from the start state it locks the sidebar open. */
  lemma ToggleTwiceRestores(p: Panel)
    ensures Toggled(Toggled(p)) == p
    ensures Toggled(p) != p
    ensures Toggled(Panel(false, false)) == Panel(true, true)
  {
  }

  /** The menu button flips the hover state rather than pinning it: clicking it while the
      cursor has expanded the sidebar collapses and locks it, and it stays collapsed when
      the cursor leaves. */
  lemma LockWhileHovered()
    ensures Toggled(Entered(Panel(false, false))) == Panel(false, true)
    ensures Left(Toggled(Entered(Panel(false, false)))) == Panel(false, true)
  {
  }

  class Sidebar {
    var isExpanded: bool
    var isLocked: bool

    function State(): Panel
      reads this
    {
      Panel(isExpanded, isLocked)
    }

    constructor()
      ensures State() == Panel(false, false)
    {
      isExpanded, isLocked := false, false;
    }

    method HandleMouseEnter()
      modifies this
      ensures State() == Entered(old(State()))
    {
      if !isLocked {
        isExpanded := true;
      }
    }

    method HandleMouseLeave()
      modifies this
      ensures State() == Left(old(State()))
    {
      if !isLocked {
        isExpanded := false;
      }
    }

    method HandleToggleClick()
      modifies this
      ensures State() == Toggled(old(State()))
    {
      isLocked := !isLocked;
      isExpanded := !isExpanded;
    }
  }
}
