/**
 * The monitoring page's state (src/app/page.tsx): the username field, the
 * monitoring flag, the notification feed and the toasts raised so far, over
 * the connection hook it uses. Each handler of the page is a method.
 */
module Spygram {
  import opened Wrappers
  import opened WebSocketHook
  import opened PageLogic

  class Page {
    /** The state of the connection hook the page renders with. */
    const conn: Connection
    var username: string
    var isMonitoring: bool
    var notifications: seq<Notification>
    /** Every toast the page has raised, oldest first. */
    var toasts: seq<Toast>
    /** The inbound frames the feed effect has processed, in arrival order. */
    ghost var received: seq<InboundMessage>

    /**
     * The feed is the reference newest-first feed of the frames received, and
     * the hook's last message is the most recent of them.
     */
    ghost predicate Valid()
      reads this, conn
    {
      conn.Valid() &&
      notifications == NewestFirst(received) &&
      conn.lastMessage == (if received == [] then None else Some(received[|received| - 1]))
    }

    /** The first render: empty username, not monitoring, empty feed, a fresh hook. */
    constructor ()
      ensures Valid() && fresh(conn)
      ensures username == "" && !isMonitoring && notifications == [] && toasts == [] && received == []
      ensures conn.socket.None? && !conn.isConnected && conn.lastMessage.None? && conn.outbox == []
    {
      conn := new Connection();
      username := "";
      isMonitoring := false;
      notifications := [];
      toasts := [];
      received := [];
    }

    /** The username input's `onChange`: only the username changes; no stop command is sent. */
    method SetUsername(u: string)
      requires Valid()
      modifies this
      ensures Valid()
      ensures username == u
      ensures isMonitoring == old(isMonitoring) && notifications == old(notifications)
      ensures toasts == old(toasts) && received == old(received)
    {
      username := u;
    }

    /**
     * An inbound frame: the hook stores it as the last message, then the feed
     * effect pushes its entry onto the feed and raises one toast for it.
     */
    method Deliver(m: InboundMessage)
      requires Valid() && conn.socket.Some? && conn.socket.value !in conn.closed
      modifies this, conn
      ensures Valid()
      ensures received == old(received) + [m]
      ensures conn.lastMessage == Some(m)
      ensures notifications == Push(old(notifications), ToNotification(m))
      ensures |notifications| <= FeedCapacity
      ensures toasts == old(toasts) + [EventToast(m)]
      ensures username == old(username) && isMonitoring == old(isMonitoring)
      ensures conn.url == old(conn.url) && conn.socket == old(conn.socket) && conn.created == old(conn.created)
      ensures conn.closed == old(conn.closed) && conn.isConnected == old(conn.isConnected)
      ensures conn.outbox == old(conn.outbox)
    {
      conn.Receive(m);
      received := received + [m];
      if conn.lastMessage.Some? {
        var msg := conn.lastMessage.value;
        notifications := Push(notifications, ToNotification(msg));
        toasts := toasts + [EventToast(msg)];
      }
      PushNewestFirst(old(received), m);
    }

    /**
     * `handleMonitorToggle`: send the command chosen by the current flag, flip
     * the flag without waiting for any acknowledgement, and raise a toast. The
     * flag flips even when the hook drops the command for want of a socket.
     */
    method ToggleMonitor()
      requires Valid()
      modifies this, conn
      ensures Valid()
      ensures isMonitoring == !old(isMonitoring)
      ensures conn.outbox == old(conn.outbox) +
        (if conn.socket.Some? then [Frame(conn.socket.value, ToggleCommand(old(isMonitoring), username))] else [])
      ensures toasts == old(toasts) + [ToggleToast(old(isMonitoring), username)]
      ensures username == old(username) && notifications == old(notifications) && received == old(received)
      ensures conn.url == old(conn.url) && conn.socket == old(conn.socket) && conn.created == old(conn.created)
      ensures conn.closed == old(conn.closed) && conn.isConnected == old(conn.isConnected)
      ensures conn.lastMessage == old(conn.lastMessage)
    {
      var message := ToggleCommand(isMonitoring, username);
      conn.Send(message);
      var was := isMonitoring;
      isMonitoring := !isMonitoring;
      toasts := toasts + [ToggleToast(was, username)];
    }

    /**
     * The monitor switch: a change reaches `handleMonitorToggle` only while the
     * switch is enabled, and then the command is always handed to `socket.send`.
     */
    method OnSwitch()
      requires Valid()
      modifies this, conn
      ensures Valid()
      ensures SwitchEnabled(old(conn.isConnected), old(username)) ==>
        isMonitoring == !old(isMonitoring) &&
        conn.socket.Some? &&
        conn.outbox == old(conn.outbox) + [Frame(conn.socket.value, ToggleCommand(old(isMonitoring), username))] &&
        toasts == old(toasts) + [ToggleToast(old(isMonitoring), username)]
      ensures !SwitchEnabled(old(conn.isConnected), old(username)) ==>
        isMonitoring == old(isMonitoring) && conn.outbox == old(conn.outbox) && toasts == old(toasts)
      ensures username == old(username) && notifications == old(notifications) && received == old(received)
      ensures conn.url == old(conn.url) && conn.socket == old(conn.socket) && conn.created == old(conn.created)
      ensures conn.closed == old(conn.closed) && conn.isConnected == old(conn.isConnected)
      ensures conn.lastMessage == old(conn.lastMessage)
    {
      if SwitchEnabled(conn.isConnected, username) {
        ToggleMonitor();
      }
    }
  }

  /** Switching on, off and on for one username, once connected, sends monitor, stopMonitor, monitor. */
  method ToggleOnOffOn(url: string, u: string) returns (sent: seq<Command>)
    requires u != ""
    ensures sent == [Monitor(u), StopMonitor(u), Monitor(u)]
  {
    var page := new Page();
    page.conn.Connect(url);
    page.conn.Open();
    page.SetUsername(u);
    page.OnSwitch();
    page.OnSwitch();
    page.OnSwitch();
    sent := Commands(page.conn.outbox);
  }

  /** The same frame delivered twice gives two feed entries and two toasts. */
  method RepeatedFrame(url: string, m: InboundMessage) returns (feed: seq<Notification>, raised: seq<Toast>)
    ensures feed == [ToNotification(m), ToNotification(m)]
    ensures raised == [EventToast(m), EventToast(m)]
  {
    var page := new Page();
    page.conn.Connect(url);
    page.Deliver(m);
    page.Deliver(m);
    feed, raised := page.notifications, page.toasts;
  }

  /**
   * The handler called before any socket exists: the command is dropped, yet
   * the page believes it is monitoring.
   */
  method ToggleWithoutSocket(u: string) returns (monitoring: bool, sent: seq<Command>)
    ensures monitoring && sent == []
  {
    var page := new Page();
    page.SetUsername(u);
    page.ToggleMonitor();
    monitoring, sent := page.isMonitoring, Commands(page.conn.outbox);
  }

  /** The command is handed to `socket.send` of a socket that exists but has not opened yet. */
  method ToggleWhileConnecting(url: string, u: string) returns (connected: bool, sent: seq<Command>)
    ensures !connected && sent == [Monitor(u)]
  {
    var page := new Page();
    page.conn.Connect(url);
    page.SetUsername(u);
    page.ToggleMonitor();
    connected, sent := page.conn.isConnected, Commands(page.conn.outbox);
  }

  /** Changing the username while monitoring sends no stop command for the old one. */
  method RenameWhileMonitoring(url: string, u1: string, u2: string)
    returns (monitoring: bool, user: string, sent: seq<Command>)
    requires u1 != ""
    ensures monitoring && user == u2 && sent == [Monitor(u1)]
  {
    var page := new Page();
    page.conn.Connect(url);
    page.conn.Open();
    page.SetUsername(u1);
    page.OnSwitch();
    page.SetUsername(u2);
    monitoring, user, sent := page.isMonitoring, page.username, Commands(page.conn.outbox);
  }

  /** A url change closes the first socket before the second is created and stored. */
  method ChangeUrl(u1: string, u2: string) returns (closed: set<SocketId>, current: Option<SocketId>)
    requires u1 != u2
    ensures closed == {0} && current == Some(1)
  {
    var hook := new Connection();
    hook.Connect(u1);
    hook.Connect(u2);
    closed, current := hook.closed, hook.socket;
  }

  /** After teardown the stored socket is closed but kept, so a send still goes to it. */
  method SendAfterTeardown(url: string, c: Command) returns (closed: set<SocketId>, sent: seq<Frame>)
    ensures closed == {0} && sent == [Frame(0, c)]
  {
    var hook := new Connection();
    hook.Connect(url);
    hook.Teardown();
    hook.Send(c);
    closed, sent := hook.closed, hook.outbox;
  }
}
