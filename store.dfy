/**
 * The application store: the signed-in user, their profile, their
 * notifications and the unread counter shown beside them. Backend reads and
 * writes are replaced by the results they deliver.
 */
module Store {
  import opened Shared

  datatype User = User(id: string, email: string)

  datatype Profile = Profile(
    id: string,
    fullName: string,
    avatarUrl: Option<string>,
    trustScore: int,
    isIdVerified: bool,
    stripeAccountId: Option<string>)

  datatype Notification = Notification(
    id: string,
    kind: string,
    title: string,
    body: string,
    isRead: bool,
    createdAt: string)

  /** The user record the auth provider hands back; its email may be missing. */
  datatype AuthUser = AuthUser(id: string, email: Option<string>)

  /** Auth state changes the store reacts to; every other event is ignored. */
  datatype AuthEvent = SignedIn(sessionUser: Option<AuthUser>) | SignedOut | OtherEvent

  /** The backend write a mark-read operation sends. */
  datatype ReadUpdate = MarkOne(notificationId: string) | MarkAllUnreadOf(userId: string)

  /** The store's user record: the auth user's id and email, with a missing email stored as empty. */
  function UserOf(u: AuthUser): (r: User)
    ensures r.id == u.id
    ensures u.email.Some? ==> r.email == u.email.value
    ensures u.email.None? ==> r.email == ""
  {
    User(u.id, OrElse(u.email, ""))
  }

  /** How many notifications are unread. */
  function CountUnread(ns: seq<Notification>): (r: nat)
    ensures r <= |ns|
    ensures r == 0 <==> forall i :: 0 <= i < |ns| ==> ns[i].isRead
  {
    if ns == [] then 0
    else (if ns[0].isRead then 0 else 1) + CountUnread(ns[1..])
  }

  /** How many unread entries carry the given id. */
  function CountUnreadWithId(ns: seq<Notification>, id: string): (r: nat)
    ensures r <= CountUnread(ns)
  {
    if ns == [] then 0
    else (if !ns[0].isRead && ns[0].id == id then 1 else 0) + CountUnreadWithId(ns[1..], id)
  }

  /** Flags every notification carrying `id` as read, in place in the list. */
  function MarkRead(ns: seq<Notification>, id: string): (r: seq<Notification>)
    ensures |r| == |ns|
    ensures forall i :: 0 <= i < |ns| ==> r[i] == if ns[i].id == id then ns[i].(isRead := true) else ns[i]
  {
    if ns == [] then []
    else [if ns[0].id == id then ns[0].(isRead := true) else ns[0]] + MarkRead(ns[1..], id)
  }

  /** Flags every notification as read. */
  function MarkAllRead(ns: seq<Notification>): (r: seq<Notification>)
    ensures |r| == |ns|
    ensures forall i :: 0 <= i < |ns| ==> r[i] == ns[i].(isRead := true)
  {
    if ns == [] then [] else [ns[0].(isRead := true)] + MarkAllRead(ns[1..])
  }

  /** One less than the counter, but never below zero. */
  function DecrementClamped(count: int): (r: int)
    ensures r >= 0
    ensures count > 0 ==> r == count - 1
    ensures count <= 0 ==> r == 0
  {
    if count - 1 > 0 then count - 1 else 0
  }

  /** Marking one id read removes exactly the unread entries with that id from the count. */
  lemma {:induction false} CountUnreadAfterMarkRead(ns: seq<Notification>, id: string)
    ensures CountUnread(MarkRead(ns, id)) == CountUnread(ns) - CountUnreadWithId(ns, id)
  {
    if ns != [] {
      CountUnreadAfterMarkRead(ns[1..], id);
      assert MarkRead(ns, id)[1..] == MarkRead(ns[1..], id);
    }
  }

  /**
   * When exactly one unread entry carries the id (read entries may share
   * it), the clamped decrement keeps the counter equal to the number of
   * unread entries.
   */
  lemma MarkReadKeepsCountExact(ns: seq<Notification>, id: string, count: int)
    requires count == CountUnread(ns)
    requires CountUnreadWithId(ns, id) == 1
    ensures DecrementClamped(count) == CountUnread(MarkRead(ns, id))
  {
    CountUnreadAfterMarkRead(ns, id);
  }

  /**
   * The decrement happens whatever the entry's state: marking an entry that
   * was already read (or an id that is not in the list) still lowers a
   * positive counter, which then undercounts the unread entries by one.
   */
  lemma MarkReadDrift(ns: seq<Notification>, id: string, count: int)
    requires count == CountUnread(ns) && count > 0
    requires CountUnreadWithId(ns, id) == 0
    ensures CountUnread(MarkRead(ns, id)) == count
    ensures DecrementClamped(count) == count - 1
  {
    CountUnreadAfterMarkRead(ns, id);
  }

  /** After marking everything read nothing is unread. */
  lemma MarkAllReadLeavesNoneUnread(ns: seq<Notification>)
    ensures CountUnread(MarkAllRead(ns)) == 0
  {
  }

  class AppStore {
    var user: Option<User>
    var profile: Option<Profile>
    var notifications: seq<Notification>
    var unreadCount: int
    var loading: bool

    /** The counter is never negative. */
    ghost predicate Valid()
      reads this
    {
      unreadCount >= 0
    }

    /** The counter agrees with the notification list. */
    ghost predicate Synced()
      reads this
    {
      unreadCount == CountUnread(notifications)
    }

    constructor ()
      ensures Valid() && Synced()
      ensures user == None && profile == None && notifications == [] && unreadCount == 0 && loading
    {
      user := None;
      profile := None;
      notifications := [];
      unreadCount := 0;
      loading := true;
    }

    method SetUser(u: Option<User>)
      modifies this
      ensures user == u
      ensures profile == old(profile) && notifications == old(notifications)
      ensures unreadCount == old(unreadCount) && loading == old(loading)
    {
      user := u;
    }

    /** A notification pushed by the realtime feed becomes the new head. */
    method OnNotificationInsert(n: Notification)
      requires Valid()
      modifies this
      ensures Valid()
      ensures notifications == [n] + old(notifications)
      ensures unreadCount == old(unreadCount) + 1
      ensures !n.isRead && old(Synced()) ==> Synced()
      ensures user == old(user) && profile == old(profile) && loading == old(loading)
    {
      notifications := [n] + notifications;
      unreadCount := unreadCount + 1;
    }

    /** Stores the fetched profile row; nothing happens without a user. */
    method FetchProfile(data: Option<Profile>)
      modifies this
      ensures user.Some? && data.Some? ==> profile == data
      ensures user.None? || data.None? ==> profile == old(profile)
      ensures user == old(user) && notifications == old(notifications)
      ensures unreadCount == old(unreadCount) && loading == old(loading)
    {
      if user.None? {
        return;
      }
      if data.Some? {
        profile := data;
      }
    }

    /** Replaces the list with the fetched rows and recounts the unread ones. */
    method FetchNotifications(data: Option<seq<Notification>>)
      requires Valid()
      modifies this
      ensures Valid()
      ensures user.Some? && data.Some? ==> notifications == data.value && Synced()
      ensures user.None? || data.None? ==> notifications == old(notifications) && unreadCount == old(unreadCount)
      ensures user == old(user) && profile == old(profile) && loading == old(loading)
    {
      if user.None? {
        return;
      }
      if data.Some? {
        notifications := data.value;
        unreadCount := CountUnread(data.value);
      }
    }

    /**
     * Flags every entry with the id as read and lowers the counter by one,
     * never below zero, whether or not a matching entry was unread.
     */
    method MarkNotificationRead(id: string) returns (update: ReadUpdate)
      requires Valid()
      modifies this
      ensures Valid()
      ensures update == MarkOne(id)
      ensures notifications == MarkRead(old(notifications), id)
      ensures unreadCount == DecrementClamped(old(unreadCount))
      ensures user == old(user) && profile == old(profile) && loading == old(loading)
    {
      update := MarkOne(id);
      notifications := MarkRead(notifications, id);
      unreadCount := DecrementClamped(unreadCount);
    }

    /** Flags every entry read and zeroes the counter; nothing happens without a user. */
    method MarkAllNotificationsRead() returns (update: Option<ReadUpdate>)
      requires Valid()
      modifies this
      ensures Valid()
      ensures user.None? ==> update == None && notifications == old(notifications) && unreadCount == old(unreadCount)
      ensures user.Some? ==> update == Some(MarkAllUnreadOf(user.value.id))
      ensures user.Some? ==> notifications == MarkAllRead(old(notifications)) && unreadCount == 0 && Synced()
      ensures user == old(user) && profile == old(profile) && loading == old(loading)
    {
      if user.None? {
        return None;
      }
      update := Some(MarkAllUnreadOf(user.value.id));
      notifications := MarkAllRead(notifications);
      unreadCount := 0;
      MarkAllReadLeavesNoneUnread(old(notifications));
    }

    /** Clears the session: the state `signOut` and the `SIGNED_OUT` event both leave. */
    method SignOut()
      modifies this
      ensures Valid() && Synced()
      ensures user == None && profile == None && notifications == [] && unreadCount == 0
      ensures loading == old(loading)
    {
      user, profile, notifications, unreadCount := None, None, [], 0;
    }

    /**
     * Start-up: with a signed-in user, record them and load their profile and
     * notifications; in every case end with `loading` false.
     */
    method Initialize(authUser: Option<AuthUser>, profileData: Option<Profile>, notificationData: Option<seq<Notification>>)
      requires Valid()
      modifies this
      ensures Valid() && !loading
      ensures authUser.None? ==>
        user == old(user) && profile == old(profile) && notifications == old(notifications) && unreadCount == old(unreadCount)
      ensures authUser.Some? ==> user == Some(UserOf(authUser.value))
      ensures authUser.Some? ==> profile == if profileData.Some? then profileData else old(profile)
      ensures authUser.Some? && notificationData.Some? ==> notifications == notificationData.value && Synced()
      ensures authUser.Some? && notificationData.None? ==>
        notifications == old(notifications) && unreadCount == old(unreadCount)
    {
      if authUser.Some? {
        SetUser(Some(UserOf(authUser.value)));
        FetchProfile(profileData);
        FetchNotifications(notificationData);
      }
      loading := false;
    }

    /** The auth listener: a sign-in with a session user reloads, a sign-out clears. */
    method OnAuthStateChange(event: AuthEvent, profileData: Option<Profile>, notificationData: Option<seq<Notification>>)
      requires Valid()
      modifies this
      ensures Valid() && loading == old(loading)
      ensures event.SignedOut? ==> user == None && profile == None && notifications == [] && unreadCount == 0
      ensures event.SignedIn? && event.sessionUser.Some? ==>
        && user == Some(UserOf(event.sessionUser.value))
        && profile == (if profileData.Some? then profileData else old(profile))
        && (notificationData.Some? ==> notifications == notificationData.value && Synced())
        && (notificationData.None? ==> notifications == old(notifications) && unreadCount == old(unreadCount))
      ensures event.OtherEvent? || (event.SignedIn? && event.sessionUser.None?) ==>
        user == old(user) && profile == old(profile) && notifications == old(notifications) && unreadCount == old(unreadCount)
    {
      match event
      case SignedIn(sessionUser) =>
        if sessionUser.Some? {
          SetUser(Some(UserOf(sessionUser.value)));
          FetchProfile(profileData);
          FetchNotifications(notificationData);
        }
      case SignedOut =>
        SignOut();
      case OtherEvent =>
    }
  }
}
