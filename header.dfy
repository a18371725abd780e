/** The storefront header: the scroll watcher that hides and shows the top bar, the
    rotating mobile messages, the mobile accordion flags, the top-level category list
    and the desktop mega-menu's open state. Scroll positions are whole numbers. */
module Header {
  import opened Options
  import opened Text
  import opened Seqs

  /** A category as the header receives it, with its nested subcategories; the name
      is absent when the API omits it. */
  datatype Category = Category(
    id: string, name: Option<string>, slug: string,
    parentCategoryId: Option<string>, subCategories: Option<seq<Category>>)

  /** `cat.subCategories && cat.subCategories.length > 0` */
  predicate HasSubcategories(c: Category)
  {
    c.subCategories.Some? && |c.subCategories.value| > 0
  }

  // ---------------------------------------------------------------------------
  // Scrolling

  datatype Direction = Up | Down

  /** The direction after an event at `current`: a move down by more than 1 means
      down, a move up by more than 8 means up, anything smaller keeps the old
      direction, and within 2 of the bottom it is down whatever the move. */
  function NextDirection(dir: Option<Direction>, last: int, current: int, maxScroll: int): Option<Direction>
  {
    var moved := if current > last + 1 then Some(Down) else if current < last - 8 then Some(Up) else dir;
    if current >= maxScroll - 2 then Some(Down) else moved
  }

  /** Whether the top bar is shown after an event, given the direction just computed. */
  function NextTopBar(show: bool, dir: Option<Direction>, current: int, maxScroll: int): bool
  {
    if dir == Some(Down) then (if current > 5 then false else show)
    else if dir == Some(Up) then (if current < maxScroll - 80 then true else show)
    else show
  }

  /** The direction follows the move outside the dead band from 9 up to 1 down, is
      kept inside it, and is down near the bottom; once set it is never cleared, and it
      turns up only on a move up by more than 8. */
  lemma DirectionSpec(dir: Option<Direction>, last: int, current: int, maxScroll: int)
    ensures current >= maxScroll - 2 ==> NextDirection(dir, last, current, maxScroll) == Some(Down)
    ensures current < maxScroll - 2 && current - last > 1 ==> NextDirection(dir, last, current, maxScroll) == Some(Down)
    ensures current < maxScroll - 2 && last - current > 8 ==> NextDirection(dir, last, current, maxScroll) == Some(Up)
    ensures current < maxScroll - 2 && last - current <= 8 && current - last <= 1 ==>
              NextDirection(dir, last, current, maxScroll) == dir
    ensures dir.Some? ==> NextDirection(dir, last, current, maxScroll).Some?
    ensures dir != Some(Up) && NextDirection(dir, last, current, maxScroll) == Some(Up) ==> current < last - 8
  {
  }

  /** The top bar changes only in two ways: it hides while scrolling down below the
      first 5 pixels, and it shows while scrolling up more than 80 pixels above the
      bottom. */
  lemma TopBarChanges(show: bool, dir: Option<Direction>, last: int, current: int, maxScroll: int)
    ensures var d := NextDirection(dir, last, current, maxScroll);
            var s := NextTopBar(show, d, current, maxScroll);
            && (show && !s ==> d == Some(Down) && current > 5)
            && (!show && s ==> d == Some(Up) && current < maxScroll - 80)
            && (d == Some(Down) && current > 5 ==> !s)
            && (d == Some(Up) && current < maxScroll - 80 ==> s)
            && (d.None? ==> s == show)
  {
  }

  /** Near the top the bar is never hidden, and near the bottom it is never shown. */
  lemma TopBarAtTheEnds(show: bool, dir: Option<Direction>, last: int, current: int, maxScroll: int)
    ensures current <= 5 && show ==>
              NextTopBar(show, NextDirection(dir, last, current, maxScroll), current, maxScroll)
    ensures current >= maxScroll - 2 && (!show || current > 5) ==>
              !NextTopBar(show, NextDirection(dir, last, current, maxScroll), current, maxScroll)
  {
  }

  // ---------------------------------------------------------------------------
  // Mobile messages

  /** The number of rotating mobile top-bar messages. */
  const MessageCount: nat := 4

  /** The interval's updater `(p) => (p + 1) % mobileTopMessages.length`. */
  function NextMessage(p: nat): (r: nat)
    ensures r < MessageCount
    ensures p < MessageCount - 1 ==> r == p + 1
    ensures p == MessageCount - 1 ==> r == 0
  {
    (p + 1) % MessageCount
  }

  /** The message index after `k` ticks. */
  function Rotated(p: nat, k: nat): nat
  {
    if k == 0 then p else NextMessage(Rotated(p, k - 1))
  }

  /** `k` ticks move the index `k` places round the circle of messages. */
  lemma {:induction false} RotatedIsModular(p: nat, k: nat)
    requires p < MessageCount
    ensures Rotated(p, k) == (p + k) % MessageCount
  {
    if k > 0 {
      RotatedIsModular(p, k - 1);
    }
  }

  /** Every message comes round within four ticks, and four ticks return to the start. */
  lemma EveryMessageComesRound(p: nat, m: nat)
    requires p < MessageCount && m < MessageCount
    ensures Rotated(p, (m + MessageCount - p) % MessageCount) == m
    ensures Rotated(p, MessageCount) == p
  {
    RotatedIsModular(p, (m + MessageCount - p) % MessageCount);
    RotatedIsModular(p, MessageCount);
  }

  // ---------------------------------------------------------------------------
  // Mobile accordions

  /** `s[id]` read as a flag: an absent id is closed. */
  predicate IsOpen(flags: map<string, bool>, id: string)
  {
    id in flags && flags[id]
  }

  /** `toggleParent` / `toggleChild`: `{ ...s, [id]: !s[id] }`. */
  function Toggle(flags: map<string, bool>, id: string): (r: map<string, bool>)
    ensures IsOpen(r, id) <==> !IsOpen(flags, id)
    ensures id in r
    ensures forall x :: x != id ==> (x in r <==> x in flags)
    ensures forall x :: x != id && x in flags ==> r[x] == flags[x]
  {
    flags[id := !IsOpen(flags, id)]
  }

  /** Toggling the same id twice leaves every accordion as it was. */
  lemma ToggleTwice(flags: map<string, bool>, id: string)
    ensures forall x :: IsOpen(Toggle(Toggle(flags, id), id), x) <==> IsOpen(flags, x)
  {
  }

  /** Toggles of different ids commute. */
  lemma TogglesCommute(flags: map<string, bool>, a: string, b: string)
    requires a != b
    ensures Toggle(Toggle(flags, a), b) == Toggle(Toggle(flags, b), a)
  {
    var va, vb := !IsOpen(flags, a), !IsOpen(flags, b);
    var ma, mb := flags[a := va], flags[b := vb];
    assert IsOpen(ma, b) == IsOpen(flags, b);
    assert IsOpen(mb, a) == IsOpen(flags, a);
    var l, r := ma[b := vb], mb[a := va];
    assert l.Keys == r.Keys;
    assert forall x :: x in l ==> l[x] == r[x];
  }

  // ---------------------------------------------------------------------------
  // Categories

  /** `data.filter((cat) => !cat.parentCategoryId)` */
  function TopCategories(data: seq<Category>): seq<Category>
  {
    Filter(data, (c: Category) => !Truthy(c.parentCategoryId))
  }

  /** The categories reply: parsed `{ success, data }`, or an exception. */
  datatype CategoriesReply = Parsed(success: bool, data: Option<seq<Category>>) | Thrown

  /** `fetchCategories`: a successful reply replaces the list; reading `filter` of a
      missing `data` throws, and an exception or a failed reply keeps the list. */
  function Fetched(current: seq<Category>, reply: CategoriesReply): seq<Category>
  {
    match reply
    case Parsed(success, data) => if success && data.Some? then TopCategories(data.value) else current
    case Thrown => current
  }

  /** A fetched list holds exactly the reply's categories without a parent, in the
      reply's order; anything else keeps what was shown. */
  lemma FetchedSpec(current: seq<Category>, reply: CategoriesReply)
    ensures reply.Parsed? && reply.success && reply.data.Some? ==>
              (forall c :: c in Fetched(current, reply) <==> c in reply.data.value && !Truthy(c.parentCategoryId))
              && IsSubsequence(Fetched(current, reply), reply.data.value)
    ensures !(reply.Parsed? && reply.success && reply.data.Some?) ==> Fetched(current, reply) == current
  {
    if reply.Parsed? && reply.success && reply.data.Some? {
      var p := (c: Category) => !Truthy(c.parentCategoryId);
      forall c | c in reply.data.value && p(c) ensures c in Fetched(current, reply) {
        FilterKeeps(reply.data.value, p, c);
      }
      FilterIsSubsequence(reply.data.value, p);
    }
  }

  /** The header's state. */
  class HeaderState {
    /** The categories rendered on the server, if any. */
    const ssrCategories: seq<Category>
    var categories: seq<Category>
    var activeCategory: Option<Category>
    var hovered: bool
    var showTopBar: bool
    var lastScroll: int
    var direction: Option<Direction>
    var currentMsg: nat
    var openParents: map<string, bool>
    var openChildren: map<string, bool>

    constructor (ssr: seq<Category>)
      ensures ssrCategories == ssr && categories == ssr
      ensures activeCategory.None? && !hovered && showTopBar
      ensures lastScroll == 0 && direction.None? && currentMsg == 0
      ensures openParents == map[] && openChildren == map[]
    {
      ssrCategories, categories := ssr, ssr;
      activeCategory, hovered, showTopBar := None, false, true;
      lastScroll, direction, currentMsg := 0, None, 0;
      openParents, openChildren := map[], map[];
    }

    /** The desktop mega-menu is shown. */
    predicate ShowsMegaMenu()
      reads this
    {
      hovered && activeCategory.Some? && HasSubcategories(activeCategory.value)
    }

    /** `handleScroll` at position `current` with the page's largest scroll offset. */
    method HandleScroll(current: int, maxScroll: int)
      modifies this
      ensures direction == NextDirection(old(direction), old(lastScroll), current, maxScroll)
      ensures showTopBar == NextTopBar(old(showTopBar), direction, current, maxScroll)
      ensures lastScroll == current
      ensures categories == old(categories) && activeCategory == old(activeCategory) && hovered == old(hovered)
      ensures currentMsg == old(currentMsg) && openParents == old(openParents) && openChildren == old(openChildren)
    {
      if current > lastScroll + 1 {
        direction := Some(Down);
      } else if current < lastScroll - 8 {
        direction := Some(Up);
      }
      if current >= maxScroll - 2 {
        direction := Some(Down);
      }
      if direction == Some(Down) {
        if current > 5 {
          showTopBar := false;
        }
      } else if direction == Some(Up) {
        if current < maxScroll - 80 {
          showTopBar := true;
        }
      }
      lastScroll := current;
    }

    /** One tick of the message interval. */
    method RotateMessage()
      modifies this
      ensures currentMsg == NextMessage(old(currentMsg))
      ensures showTopBar == old(showTopBar) && lastScroll == old(lastScroll) && direction == old(direction)
      ensures categories == old(categories) && activeCategory == old(activeCategory) && hovered == old(hovered)
      ensures openParents == old(openParents) && openChildren == old(openChildren)
    {
      currentMsg := NextMessage(currentMsg);
    }

    method ToggleParent(id: string)
      modifies this
      ensures openParents == Toggle(old(openParents), id) && openChildren == old(openChildren)
      ensures categories == old(categories) && activeCategory == old(activeCategory) && hovered == old(hovered)
      ensures currentMsg == old(currentMsg) && showTopBar == old(showTopBar)
      ensures lastScroll == old(lastScroll) && direction == old(direction)
    {
      openParents := Toggle(openParents, id);
    }

    method ToggleChild(id: string)
      modifies this
      ensures openChildren == Toggle(old(openChildren), id) && openParents == old(openParents)
      ensures categories == old(categories) && activeCategory == old(activeCategory) && hovered == old(hovered)
      ensures currentMsg == old(currentMsg) && showTopBar == old(showTopBar)
      ensures lastScroll == old(lastScroll) && direction == old(direction)
    {
      openChildren := Toggle(openChildren, id);
    }

    /** The categories effect: skipped when the server supplied categories. */
    method LoadCategories(reply: CategoriesReply)
      modifies this
      ensures |ssrCategories| > 0 ==> categories == old(categories)
      ensures |ssrCategories| == 0 ==> categories == Fetched(old(categories), reply)
      ensures activeCategory == old(activeCategory) && hovered == old(hovered) && showTopBar == old(showTopBar)
      ensures lastScroll == old(lastScroll) && direction == old(direction) && currentMsg == old(currentMsg)
      ensures openParents == old(openParents) && openChildren == old(openChildren)
    {
      if |ssrCategories| > 0 {
        return;
      }
      categories := Fetched(categories, reply);
    }

    /** `openMenu` */
    method OpenMenu(c: Category)
      modifies this
      ensures activeCategory == Some(c) && hovered
      ensures ShowsMegaMenu() <==> HasSubcategories(c)
      ensures categories == old(categories) && showTopBar == old(showTopBar)
      ensures lastScroll == old(lastScroll) && direction == old(direction) && currentMsg == old(currentMsg)
      ensures openParents == old(openParents) && openChildren == old(openChildren)
    {
      activeCategory := Some(c);
      hovered := true;
    }

    /** `closeMenu`, the handler for leaving the category bar. */
    method CloseMenu()
      modifies this
      ensures activeCategory.None? && !hovered && !ShowsMegaMenu()
      ensures categories == old(categories) && showTopBar == old(showTopBar)
      ensures lastScroll == old(lastScroll) && direction == old(direction) && currentMsg == old(currentMsg)
      ensures openParents == old(openParents) && openChildren == old(openChildren)
    {
      hovered := false;
      activeCategory := None;
    }

    /** Pointing at a category in the bar: one with subcategories opens the menu on
        it, any other closes the menu. */
    method HoverCategory(c: Category)
      modifies this
      ensures HasSubcategories(c) ==> activeCategory == Some(c) && hovered
      ensures !HasSubcategories(c) ==> activeCategory.None? && !hovered
      ensures ShowsMegaMenu() <==> HasSubcategories(c)
      ensures categories == old(categories) && showTopBar == old(showTopBar)
      ensures lastScroll == old(lastScroll) && direction == old(direction) && currentMsg == old(currentMsg)
      ensures openParents == old(openParents) && openChildren == old(openChildren)
    {
      if HasSubcategories(c) {
        OpenMenu(c);
      } else {
        hovered := false;
        activeCategory := None;
      }
    }

    /** Pointing at the open mega-menu keeps it open: `setHovered(true)`. */
    method HoverMegaMenu()
      modifies this
      ensures hovered && activeCategory == old(activeCategory)
      ensures old(ShowsMegaMenu()) ==> ShowsMegaMenu()
      ensures categories == old(categories) && showTopBar == old(showTopBar)
      ensures lastScroll == old(lastScroll) && direction == old(direction) && currentMsg == old(currentMsg)
      ensures openParents == old(openParents) && openChildren == old(openChildren)
    {
      hovered := true;
    }
  }
}
