/**
 * The notification bell of components/notification-system.tsx: the list of
 * low-stock notifications, whether the dropdown is open, and the unread
 * count behind the red dot.
 *
 * The component's effect polls the store when it mounts, on every timer tick
 * and again each time `isOpen` changes. A tick is the event `Poll`; the
 * re-run after a change of `isOpen` is part of `HandleOpenChange`.
 */
module NotificationSystem {
  import opened Common
  import opened Products

  /** What a poll reads from the store: `checkLowStockNotifications()`. */
  function Current(ps: seq<Product>): seq<Notification>
  {
    NotificationsOf(Filter(ps, NeedsRestock))
  }

  class Bell {
    const catalog: Catalog
    var notifications: seq<Notification>
    var isOpen: bool
    var unreadCount: nat

    /** While open nothing is unread; while closed every notification of the last poll is. */
    predicate Valid()
      reads this
    {
      unreadCount == if isOpen then 0 else |notifications|
    }

    /** `unreadCount > 0`: the red dot on the bell. */
    predicate ShowsUnreadDot()
      reads this
      ensures Valid() ==> (ShowsUnreadDot() <==> !isOpen && notifications != [])
    {
      unreadCount > 0
    }

    /** Mounting: the state starts empty and closed, and the effect polls at once. */
    constructor (catalog: Catalog)
      ensures this.catalog == catalog
      ensures !isOpen && notifications == Current(catalog.products)
      ensures unreadCount == |notifications|
      ensures Valid()
    {
      this.catalog := catalog;
      notifications := [];
      isOpen := false;
      unreadCount := 0;
      new;
      Poll();
    }

    /** `checkNotifications()`: replaces the list; only a closed bell updates the unread count. */
    method Poll()
      modifies this`notifications, this`unreadCount
      ensures notifications == Current(catalog.products)
      ensures unreadCount == if isOpen then old(unreadCount) else |notifications|
      ensures old(Valid()) ==> Valid()
    {
      var lowStockNotifications := catalog.CheckLowStockNotifications();
      notifications := lowStockNotifications;
      if !isOpen {
        unreadCount := |lowStockNotifications|;
      }
    }

    /**
     * `handleOpenChange(open)`: opening clears the unread count; a change of
     * `isOpen` re-runs the effect, which polls at once, so closing sets the
     * count to the length of a fresh list.
     */
    method HandleOpenChange(open: bool)
      modifies this`notifications, this`unreadCount, this`isOpen
      ensures isOpen == open
      ensures notifications == if open != old(isOpen) then Current(catalog.products) else old(notifications)
      ensures open ==> unreadCount == 0
      ensures !open && old(isOpen) ==> unreadCount == |notifications|
      ensures !open && !old(isOpen) ==> unreadCount == old(unreadCount)
      ensures old(Valid()) ==> Valid()
    {
      var changed := open != isOpen;
      isOpen := open;
      if open {
        unreadCount := 0;
      }
      if changed {
        Poll();
      }
    }
  }
}
