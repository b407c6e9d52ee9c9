/** The client's interface state: theme, sidebar, modals, notifications,
    loading flags, the current page and the mobile menu. */
module UiSlice {
  import opened Common

  datatype Theme = Light | Dark

  /** toggleTheme's rule: light becomes dark and anything else light. */
  function Flipped(t: Theme): (r: Theme)
    ensures r != t
  {
    if t == Light then Dark else Light
  }

  /** Toggling the theme twice restores it. */
  lemma FlipTwice(t: Theme)
    ensures Flipped(Flipped(t)) == t
  {
  }

  // ---------------------------------------------------------------------------
  // Sidebar items

  function ItemIs(x: string): string -> bool {
    (y: string) => y == x
  }

  function ItemIsNot(x: string): string -> bool {
    (y: string) => y != x
  }

  /** toggleSidebarItem: the first occurrence is spliced out when there is
      one; otherwise the item is appended. */
  function Toggle(items: seq<string>, x: string): (r: seq<string>)
    ensures x !in items ==> r == items + [x]
    ensures x in items ==> |r| == |items| - 1 && multiset(r) == multiset(items) - multiset{x}
    ensures x in items ==>
      exists i :: 0 <= i < |items| && items[i] == x && x !in items[..i] && r == items[..i] + items[i + 1..]
  {
    match FirstIndex(items, ItemIs(x))
    case None => items + [x]
    case Some(i) =>
      assert items == items[..i] + [items[i]] + items[i + 1..];
      assert forall j :: 0 <= j < i ==> items[..i][j] != x;
      items[..i] + items[i + 1..]
  }

  /** Toggling keeps a duplicate-free list duplicate-free. */
  lemma ToggleKeepsNoDuplicates(items: seq<string>, x: string)
    requires NoDuplicates(items)
    ensures NoDuplicates(Toggle(items, x))
  {
    if x in items {
      var i := FirstIndex(items, ItemIs(x)).value;
      assert Toggle(items, x) == items[..i] + items[i + 1..];
      RemoveAtKeepsNoDuplicates(items, i);
    }
  }

  /** On a duplicate-free list, toggling an item twice restores which items
      are expanded. */
  lemma ToggleTwiceRestoresMembers(items: seq<string>, x: string)
    requires NoDuplicates(items)
    ensures forall y :: y in Toggle(Toggle(items, x), x) <==> y in items
  {
    if x in items {
      var i := FirstIndex(items, ItemIs(x)).value;
      assert Toggle(items, x) == items[..i] + items[i + 1..];
      RemoveAtMembers(items, i);
    } else {
      ToggleAppendedRemoves(items, x);
    }
  }

  /** Toggling an item that toggling appended removes it again. */
  lemma ToggleAppendedRemoves(items: seq<string>, x: string)
    requires x !in items
    ensures Toggle(items + [x], x) == items
  {
    var r := items + [x];
    assert forall j :: 0 <= j < |items| ==> !ItemIs(x)(r[j]);
    assert ItemIs(x)(r[|items|]);
    assert FirstIndex(r, ItemIs(x)) == Some(|items|);
    assert r[..|items|] == items;
  }

  /** The order is not restored: toggling "a" twice in ["a", "b"] gives
      ["b", "a"]. */
  lemma ToggleTwiceReorders()
    ensures Toggle(Toggle(["a", "b"], "a"), "a") == ["b", "a"]
  {
    var s: seq<string> := ["a", "b"];
    assert ItemIs("a")(s[0]);
    assert FirstIndex(s, ItemIs("a")) == Some(0);
    assert Toggle(s, "a") == s[1..] == ["b"];
    var t: seq<string> := ["b"];
    assert !ItemIs("a")(t[0]);
    assert FirstIndex(t, ItemIs("a")).None?;
  }

  /** expandSidebarItem: appended only when absent. */
  function Expand(items: seq<string>, x: string): (r: seq<string>)
    ensures x in r
    ensures forall y :: y in r <==> y in items || y == x
    ensures x in items ==> r == items
  {
    if x in items then items else items + [x]
  }

  /** Expanding keeps a duplicate-free list duplicate-free, and expanding
      twice is expanding once. */
  lemma ExpandKeepsNoDuplicates(items: seq<string>, x: string)
    requires NoDuplicates(items)
    ensures NoDuplicates(Expand(items, x))
    ensures Expand(Expand(items, x), x) == Expand(items, x)
  {
  }

  /** collapseSidebarItem: every occurrence goes. */
  function Collapse(items: seq<string>, x: string): (r: seq<string>)
    ensures x !in r
    ensures forall y :: y != x ==> multiset(r)[y] == multiset(items)[y]
    ensures SubseqOf(r, items)
  {
    Filter(items, ItemIsNot(x))
  }

  /** Collapsing an item that expanding added gives the list back. */
  lemma CollapseUndoesExpand(items: seq<string>, x: string)
    requires x !in items
    ensures Collapse(Expand(items, x), x) == items
  {
    FilterAppend(items, [x], ItemIsNot(x));
    FilterKeepsAll(items, ItemIsNot(x));
  }

  // ---------------------------------------------------------------------------
  // Modals

  /** A modal; `props` stands for the opaque props object. */
  datatype Modal = Modal(id: string, kind: string, props: Option<string>, isOpen: bool)

  function ModalWithId(id: string): Modal -> bool {
    (m: Modal) => m.id == id
  }

  function ModalWithoutId(id: string): Modal -> bool {
    (m: Modal) => m.id != id
  }

  /** No two modals share an id. */
  predicate UniqueModalIds(modals: seq<Modal>) {
    forall i, j :: 0 <= i < j < |modals| ==> modals[i].id != modals[j].id
  }

  /** openModal: a modal with the id is reopened with the new props and
      keeps its type; otherwise a new open modal is appended. */
  function OpenModal(modals: seq<Modal>, id: string, kind: string, props: Option<string>): (r: seq<Modal>)
    ensures FirstIndex(modals, ModalWithId(id)).None? ==> r == modals + [Modal(id, kind, props, true)]
    ensures FirstIndex(modals, ModalWithId(id)).Some? ==>
      var i := FirstIndex(modals, ModalWithId(id)).value;
      r == modals[i := Modal(id, modals[i].kind, props, true)]
  {
    match FirstIndex(modals, ModalWithId(id))
    case None => modals + [Modal(id, kind, props, true)]
    case Some(i) => modals[i := modals[i].(isOpen := true, props := props)]
  }

  /** Opening never gives two modals the same id, and leaves the modal open. */
  lemma OpenModalKeepsIdsUnique(modals: seq<Modal>, id: string, kind: string, props: Option<string>)
    requires UniqueModalIds(modals)
    ensures UniqueModalIds(OpenModal(modals, id, kind, props))
    ensures exists i :: (0 <= i < |OpenModal(modals, id, kind, props)| &&
      OpenModal(modals, id, kind, props)[i] == Modal(id, OpenModal(modals, id, kind, props)[i].kind, props, true))
  {
    var r := OpenModal(modals, id, kind, props);
    match FirstIndex(modals, ModalWithId(id))
    case None =>
      assert r[|modals|] == Modal(id, kind, props, true);
    case Some(i) =>
      assert r[i] == Modal(id, r[i].kind, props, true);
  }

  function Closed(m: Modal): Modal {
    m.(isOpen := false)
  }

  /** closeModal: the first modal with the id is closed and kept. */
  function CloseModal(modals: seq<Modal>, id: string): (r: seq<Modal>)
    ensures |r| == |modals|
    ensures forall i :: 0 <= i < |r| ==> r[i].id == modals[i].id
    ensures FirstIndex(modals, ModalWithId(id)).Some? ==>
      var i := FirstIndex(modals, ModalWithId(id)).value;
      r == modals[i := modals[i].(isOpen := false)]
    ensures FirstIndex(modals, ModalWithId(id)).None? ==> r == modals
  {
    UpdateFirst(modals, ModalWithId(id), Closed)
  }

  /** Closing after opening leaves exactly one modal with the id, closed,
      when ids were unique. */
  lemma CloseAfterOpen(modals: seq<Modal>, id: string, kind: string, props: Option<string>)
    requires UniqueModalIds(modals)
    ensures var r := CloseModal(OpenModal(modals, id, kind, props), id);
      UniqueModalIds(r) &&
      exists i :: 0 <= i < |r| && r[i].id == id && !r[i].isOpen && r[i].props == props
  {
    OpenModalKeepsIdsUnique(modals, id, kind, props);
    var o := OpenModal(modals, id, kind, props);
    var i :| 0 <= i < |o| && o[i] == Modal(id, o[i].kind, props, true);
    assert FirstIndex(o, ModalWithId(id)) == Some(i) by {
      var k := FirstIndex(o, ModalWithId(id));
      assert o[i].id == id;
    }
    var r := CloseModal(o, id);
    assert r[i].id == id && !r[i].isOpen && r[i].props == props;
  }

  /** removeModal: every modal with the id goes. */
  function RemoveModal(modals: seq<Modal>, id: string): (r: seq<Modal>)
    ensures forall i :: 0 <= i < |r| ==> r[i].id != id
    ensures forall m :: m in r <==> m in modals && m.id != id
    ensures forall m :: multiset(r)[m] == if m.id != id then multiset(modals)[m] else 0
    ensures SubseqOf(r, modals)
  {
    Filter(modals, ModalWithoutId(id))
  }

  // ---------------------------------------------------------------------------
  // Notifications

  datatype NotificationKind = Success | Error | Warning | Info

  /** A notification; `timestamp` is the clock reading when it was added. */
  datatype Notification = Notification(
    id: string, kind: NotificationKind, title: string, message: string,
    duration: Option<int>, read: bool, timestamp: int)

  function NotificationWithId(id: string): Notification -> bool {
    (n: Notification) => n.id == id
  }

  function NotificationWithoutId(id: string): Notification -> bool {
    (n: Notification) => n.id != id
  }

  /** How many notifications are unread. */
  function UnreadCount(ns: seq<Notification>): (r: nat)
    ensures r <= |ns|
  {
    if |ns| == 0 then 0 else (if ns[0].read then 0 else 1) + UnreadCount(ns[1..])
  }

  /** addNotification: the new notification goes first, unread. `id` and
      `now` stand for the random id and the clock. */
  function AddNotification(ns: seq<Notification>, id: string, now: int, kind: NotificationKind,
                           title: string, message: string, duration: Option<int>): (r: seq<Notification>)
    ensures |r| == |ns| + 1 && r[1..] == ns
    ensures r[0] == Notification(id, kind, title, message, duration, false, now)
    ensures UnreadCount(r) == UnreadCount(ns) + 1
  {
    var r := [Notification(id, kind, title, message, duration, false, now)] + ns;
    assert r[1..] == ns;
    r
  }

  function MarkedRead(n: Notification): Notification {
    n.(read := true)
  }

  /** markNotificationAsRead: the first notification with the id. */
  function MarkRead(ns: seq<Notification>, id: string): (r: seq<Notification>)
    ensures |r| == |ns|
    ensures FirstIndex(ns, NotificationWithId(id)).None? ==> r == ns
    ensures FirstIndex(ns, NotificationWithId(id)).Some? ==>
      var i := FirstIndex(ns, NotificationWithId(id)).value;
      r == ns[i := ns[i].(read := true)]
    ensures UnreadCount(r) <= UnreadCount(ns)
  {
    var r := UpdateFirst(ns, NotificationWithId(id), MarkedRead);
    if FirstIndex(ns, NotificationWithId(id)).Some? then
      UnreadAfterMark(ns, FirstIndex(ns, NotificationWithId(id)).value);
      r
    else r
  }

  /** Marking one notification read lowers the unread count by at most one. */
  lemma {:induction false} UnreadAfterMark(ns: seq<Notification>, i: nat)
    requires i < |ns|
    ensures UnreadCount(ns[i := ns[i].(read := true)]) == UnreadCount(ns) - (if ns[i].read then 0 else 1)
  {
    if i > 0 {
      assert ns[i := ns[i].(read := true)][1..] == ns[1..][i - 1 := ns[1..][i - 1].(read := true)];
      UnreadAfterMark(ns[1..], i - 1);
    } else {
      assert ns[i := ns[i].(read := true)][1..] == ns[1..];
    }
  }

  /** removeNotification: every notification with the id goes. */
  function RemoveNotification(ns: seq<Notification>, id: string): (r: seq<Notification>)
    ensures forall i :: 0 <= i < |r| ==> r[i].id != id
    ensures forall n :: n in r <==> n in ns && n.id != id
    ensures forall n :: multiset(r)[n] == if n.id != id then multiset(ns)[n] else 0
    ensures SubseqOf(r, ns)
  {
    Filter(ns, NotificationWithoutId(id))
  }

  /** markAllNotificationsAsRead's result: every notification read, nothing
      else changed. */
  function AllRead(ns: seq<Notification>): (r: seq<Notification>)
    ensures |r| == |ns|
    ensures forall i :: 0 <= i < |ns| ==> r[i] == ns[i].(read := true)
  {
    seq(|ns|, i requires 0 <= i < |ns| => ns[i].(read := true))
  }

  /** After marking all read nothing is unread. */
  lemma {:induction false} AllReadNoneUnread(ns: seq<Notification>)
    ensures UnreadCount(AllRead(ns)) == 0
  {
    if |ns| > 0 {
      assert AllRead(ns)[1..] == AllRead(ns[1..]);
      AllReadNoneUnread(ns[1..]);
    }
  }

  // ---------------------------------------------------------------------------
  // Loading flags

  datatype LoadingKey = GlobalKey | AuthKey | CoursesKey | DashboardKey

  datatype LoadingFlags = LoadingFlags(global: bool, auth: bool, courses: bool, dashboard: bool)

  /** setLoading: one flag by its key. */
  function SetFlag(flags: LoadingFlags, key: LoadingKey, value: bool): (r: LoadingFlags)
    ensures Flag(r, key) == value
    ensures forall k :: k != key ==> Flag(r, k) == Flag(flags, k)
  {
    match key
    case GlobalKey => flags.(global := value)
    case AuthKey => flags.(auth := value)
    case CoursesKey => flags.(courses := value)
    case DashboardKey => flags.(dashboard := value)
  }

  function Flag(flags: LoadingFlags, key: LoadingKey): bool {
    match key
    case GlobalKey => flags.global
    case AuthKey => flags.auth
    case CoursesKey => flags.courses
    case DashboardKey => flags.dashboard
  }

  // ---------------------------------------------------------------------------
  // The store

  datatype UiState = UiState(
    theme: Theme,
    sidebarOpen: bool,
    expandedItems: seq<string>,
    modals: seq<Modal>,
    notifications: seq<Notification>,
    loading: LoadingFlags,
    currentPage: string,
    mobileMenuOpen: bool)

  class Store {
    var theme: Theme
    var sidebarOpen: bool
    var expandedItems: seq<string>
    var modals: seq<Modal>
    var notifications: seq<Notification>
    var loading: LoadingFlags
    var currentPage: string
    var mobileMenuOpen: bool

    function State(): UiState
      reads this
    {
      UiState(theme, sidebarOpen, expandedItems, modals, notifications, loading, currentPage, mobileMenuOpen)
    }

    /** What every reducer keeps: expanded items and modal ids stay unique. */
    predicate Valid()
      reads this
    {
      NoDuplicates(expandedItems) && UniqueModalIds(modals)
    }

    constructor ()
      ensures State() == UiState(Light, true, ["dashboard"], [], [],
        LoadingFlags(false, false, false, false), "dashboard", false)
      ensures Valid()
    {
      theme, sidebarOpen, expandedItems, modals, notifications := Light, true, ["dashboard"], [], [];
      loading, currentPage, mobileMenuOpen := LoadingFlags(false, false, false, false), "dashboard", false;
    }

    method ToggleTheme()
      modifies this
      ensures State() == old(State()).(theme := Flipped(old(theme)))
      ensures old(Valid()) ==> Valid()
    {
      theme := Flipped(theme);
    }

    method SetTheme(t: Theme)
      modifies this
      ensures State() == old(State()).(theme := t)
      ensures old(Valid()) ==> Valid()
    {
      theme := t;
    }

    method ToggleSidebar()
      modifies this
      ensures State() == old(State()).(sidebarOpen := !old(sidebarOpen))
      ensures old(Valid()) ==> Valid()
    {
      sidebarOpen := !sidebarOpen;
    }

    method SetSidebarOpen(open: bool)
      modifies this
      ensures State() == old(State()).(sidebarOpen := open)
      ensures old(Valid()) ==> Valid()
    {
      sidebarOpen := open;
    }

    method ToggleSidebarItem(x: string)
      modifies this
      ensures State() == old(State()).(expandedItems := Toggle(old(expandedItems), x))
      ensures old(Valid()) ==> Valid()
    {
      if NoDuplicates(expandedItems) {
        ToggleKeepsNoDuplicates(expandedItems, x);
      }
      expandedItems := Toggle(expandedItems, x);
    }

    method ExpandSidebarItem(x: string)
      modifies this
      ensures State() == old(State()).(expandedItems := Expand(old(expandedItems), x))
      ensures old(Valid()) ==> Valid()
    {
      if NoDuplicates(expandedItems) {
        ExpandKeepsNoDuplicates(expandedItems, x);
      }
      expandedItems := Expand(expandedItems, x);
    }

    method CollapseSidebarItem(x: string)
      modifies this
      ensures State() == old(State()).(expandedItems := Collapse(old(expandedItems), x))
      ensures old(Valid()) ==> Valid()
    {
      if NoDuplicates(expandedItems) {
        FilterKeepsNoDuplicates(expandedItems, ItemIsNot(x));
      }
      expandedItems := Collapse(expandedItems, x);
    }

    method OpenModalAction(id: string, kind: string, props: Option<string>)
      modifies this
      ensures State() == old(State()).(modals := OpenModal(old(modals), id, kind, props))
      ensures old(Valid()) ==> Valid()
    {
      if UniqueModalIds(modals) {
        OpenModalKeepsIdsUnique(modals, id, kind, props);
      }
      modals := OpenModal(modals, id, kind, props);
    }

    method CloseModalAction(id: string)
      modifies this
      ensures State() == old(State()).(modals := CloseModal(old(modals), id))
      ensures old(Valid()) ==> Valid()
    {
      modals := CloseModal(modals, id);
    }

    method RemoveModalAction(id: string)
      modifies this
      ensures State() == old(State()).(modals := RemoveModal(old(modals), id))
      ensures old(Valid()) ==> Valid()
    {
      var before := modals;
      modals := RemoveModal(modals, id);
      assert SubseqOf(modals, before);
      if UniqueModalIds(before) {
        SubseqKeepsUniqueIds(modals, before);
      }
    }

    /** addNotification; `id` and `now` are the random id and the clock. */
    method AddNotificationAction(id: string, now: int, kind: NotificationKind, title: string,
                                 message: string, duration: Option<int>)
      modifies this
      ensures State() == old(State()).(
        notifications := AddNotification(old(notifications), id, now, kind, title, message, duration))
      ensures old(Valid()) ==> Valid()
    {
      notifications := AddNotification(notifications, id, now, kind, title, message, duration);
    }

    method RemoveNotificationAction(id: string)
      modifies this
      ensures State() == old(State()).(notifications := RemoveNotification(old(notifications), id))
      ensures old(Valid()) ==> Valid()
    {
      notifications := RemoveNotification(notifications, id);
    }

    method MarkNotificationAsRead(id: string)
      modifies this
      ensures State() == old(State()).(notifications := MarkRead(old(notifications), id))
      ensures old(Valid()) ==> Valid()
    {
      notifications := MarkRead(notifications, id);
    }

    /** markAllNotificationsAsRead: the `forEach` over the list. */
    method MarkAllNotificationsAsRead()
      modifies this
      ensures State() == old(State()).(notifications := AllRead(old(notifications)))
      ensures old(Valid()) ==> Valid()
    {
      var i := 0;
      while i < |notifications|
        invariant 0 <= i <= |notifications| == |old(notifications)|
        invariant forall j :: 0 <= j < i ==> notifications[j] == old(notifications)[j].(read := true)
        invariant forall j :: i <= j < |notifications| ==> notifications[j] == old(notifications)[j]
        invariant theme == old(theme) && sidebarOpen == old(sidebarOpen) && expandedItems == old(expandedItems)
        invariant modals == old(modals) && loading == old(loading) && currentPage == old(currentPage)
        invariant mobileMenuOpen == old(mobileMenuOpen)
      {
        notifications := notifications[i := notifications[i].(read := true)];
        i := i + 1;
      }
      assert notifications == AllRead(old(notifications));
    }

    method ClearNotifications()
      modifies this
      ensures State() == old(State()).(notifications := [])
      ensures old(Valid()) ==> Valid()
    {
      notifications := [];
    }

    method SetLoading(key: LoadingKey, value: bool)
      modifies this
      ensures State() == old(State()).(loading := SetFlag(old(loading), key, value))
      ensures old(Valid()) ==> Valid()
    {
      loading := SetFlag(loading, key, value);
    }

    method SetGlobalLoading(value: bool)
      modifies this
      ensures State() == old(State()).(loading := old(loading).(global := value))
      ensures old(Valid()) ==> Valid()
    {
      loading := loading.(global := value);
    }

    method SetCurrentPage(page: string)
      modifies this
      ensures State() == old(State()).(currentPage := page)
      ensures old(Valid()) ==> Valid()
    {
      currentPage := page;
    }

    method ToggleMobileMenu()
      modifies this
      ensures State() == old(State()).(mobileMenuOpen := !old(mobileMenuOpen))
      ensures old(Valid()) ==> Valid()
    {
      mobileMenuOpen := !mobileMenuOpen;
    }

    method SetMobileMenuOpen(open: bool)
      modifies this
      ensures State() == old(State()).(mobileMenuOpen := open)
      ensures old(Valid()) ==> Valid()
    {
      mobileMenuOpen := open;
    }
  }

  /** A subsequence of a list of modals with unique ids has unique ids. */
  lemma {:induction false} SubseqKeepsUniqueIds(r: seq<Modal>, s: seq<Modal>)
    requires SubseqOf(r, s) && UniqueModalIds(s)
    ensures UniqueModalIds(r)
    decreases |s|
  {
    if |r| > 0 {
      if r[0] == s[0] && SubseqOf(r[1..], s[1..]) {
        SubseqKeepsUniqueIds(r[1..], s[1..]);
        SubseqMembers(r[1..], s[1..]);
        forall j | 0 < j < |r|
          ensures r[0].id != r[j].id
        {
          assert r[j] == r[1..][j - 1];
          assert r[j] in r[1..];
          assert r[j] in s[1..];
          var k :| 0 <= k < |s[1..]| && s[1..][k] == r[j];
          assert s[k + 1] == r[j];
        }
      } else {
        SubseqKeepsUniqueIds(r, s[1..]);
      }
    }
  }

  /** Every element of a subsequence occurs in the sequence. */
  lemma {:induction false} SubseqMembers<T>(r: seq<T>, s: seq<T>)
    requires SubseqOf(r, s)
    ensures forall x :: x in r ==> x in s
    decreases |s|
  {
    if |r| > 0 {
      if r[0] == s[0] && SubseqOf(r[1..], s[1..]) {
        SubseqMembers(r[1..], s[1..]);
        assert r == [r[0]] + r[1..];
      } else {
        SubseqMembers(r, s[1..]);
      }
    }
  }
}
