/**
 * The connection hook (src/hooks/useWebSockets.ts): one push-channel socket per
 * url, its connection flag, the last decoded inbound frame, and a guarded send.
 *
 * The browser transport is not modelled. A socket is known by the order in which
 * the hook created it (0, 1, 2, ...); what the hook hands to `socket.send` is
 * recorded in `outbox`, and the sockets on which it called `close()` in `closed`.
 */
module WebSocketHook {
  import opened Wrappers

  /** The `data` object of an inbound frame. */
  datatype FollowerData = FollowerData(username: string, follower: string)

  /**
   * A decoded inbound frame `{type, data}`. `kind` is the frame's `type` string;
   * nothing restricts it to the two values the server is meant to send.
   */
  datatype InboundMessage = InboundMessage(kind: string, data: FollowerData)

  /** An outbound monitoring command `{"type": ..., "username": ...}`, before encoding. */
  datatype Command = Monitor(username: string) | StopMonitor(username: string)

  type SocketId = nat

  /** One call of `send`: the socket it went to and what it carried. */
  datatype Frame = Frame(socket: SocketId, command: Command)

  /** The commands of a run of frames, in the order they were sent. */
  function Commands(frames: seq<Frame>): seq<Command>
  {
    seq(|frames|, i requires 0 <= i < |frames| => frames[i].command)
  }

  class Connection {
    /** The url the effect last ran for; `None` before its first run. */
    var url: Option<string>
    /** The `socket` state: `None` until the effect stores the socket it created. */
    var socket: Option<SocketId>
    /** How many sockets the hook has created; the next one gets this id. */
    var created: nat
    /** The sockets on which the hook has called `close()`. */
    var closed: set<SocketId>
    var isConnected: bool
    var lastMessage: Option<InboundMessage>
    /** Every frame handed to `socket.send`, oldest first. */
    var outbox: seq<Frame>

    /**
     * The hook's invariant: the stored socket is the one created last, every
     * socket created before it has been closed, and nothing happens on the
     * channel before a socket exists.
     */
    ghost predicate Valid()
      reads this
    {
      (url.None? <==> socket.None?) &&
      (socket.None? <==> created == 0) &&
      (socket.Some? ==> socket.value == created - 1) &&
      (forall id :: id in closed ==> id < created) &&
      (forall id: SocketId :: id < created - 1 ==> id in closed) &&
      (socket.None? ==> !isConnected && lastMessage.None? && outbox == [])
    }

    /** The state on the first render: not connected, no message, no socket. */
    constructor ()
      ensures Valid()
      ensures url.None? && socket.None? && created == 0 && closed == {}
      ensures !isConnected && lastMessage.None? && outbox == []
    {
      url := None;
      socket := None;
      created := 0;
      closed := {};
      isConnected := false;
      lastMessage := None;
      outbox := [];
    }

    /**
     * The effect, run on a render with url `u`. It does nothing when `u` is the
     * url it last ran for. Otherwise the previous run's cleanup closes the old
     * socket first, then a new socket is created and stored. The connection flag
     * is not touched: it changes only when a socket reports open or close.
     */
    method Connect(u: string)
      requires Valid()
      modifies this
      ensures Valid()
      ensures old(url) == Some(u) ==>
        url == old(url) && socket == old(socket) && created == old(created) && closed == old(closed)
      ensures old(url) != Some(u) ==>
        url == Some(u) && socket == Some(old(created)) && created == old(created) + 1 &&
        closed == old(closed) + (if old(socket).Some? then {old(socket).value} else {}) &&
        socket.value !in closed
      ensures isConnected == old(isConnected) && lastMessage == old(lastMessage) && outbox == old(outbox)
    {
      if url != Some(u) {
        Teardown();
        var ws := created;
        created := created + 1;
        socket := Some(ws);
        url := Some(u);
      }
    }

    /**
     * The effect's cleanup, on unmount or before a run for a new url: close the
     * socket this hook created. The `socket` state is not cleared.
     */
    method Teardown()
      requires Valid()
      modifies this
      ensures Valid()
      ensures closed == old(closed) + (if socket.Some? then {socket.value} else {})
      ensures url == old(url) && socket == old(socket) && created == old(created)
      ensures isConnected == old(isConnected) && lastMessage == old(lastMessage) && outbox == old(outbox)
    {
      if socket.Some? {
        closed := closed + {socket.value};
      }
    }

    /**
     * `onopen` of the stored socket. A socket on which `close()` was called
     * fires no further open or message events.
     */
    method Open()
      requires Valid() && socket.Some? && socket.value !in closed
      modifies this
      ensures Valid()
      ensures isConnected
      ensures url == old(url) && socket == old(socket) && created == old(created) && closed == old(closed)
      ensures lastMessage == old(lastMessage) && outbox == old(outbox)
    {
      isConnected := true;
    }

    /**
     * `onclose` of a socket this hook created, the current one or one it has
     * already replaced: the handlers are never detached.
     */
    method Close()
      requires Valid() && socket.Some?
      modifies this
      ensures Valid()
      ensures !isConnected
      ensures url == old(url) && socket == old(socket) && created == old(created) && closed == old(closed)
      ensures lastMessage == old(lastMessage) && outbox == old(outbox)
    {
      isConnected := false;
    }

    /** `onmessage` of the stored socket, with the frame already decoded: it replaces the last message. */
    method Receive(m: InboundMessage)
      requires Valid() && socket.Some? && socket.value !in closed
      modifies this
      ensures Valid()
      ensures lastMessage == Some(m)
      ensures url == old(url) && socket == old(socket) && created == old(created) && closed == old(closed)
      ensures isConnected == old(isConnected) && outbox == old(outbox)
    {
      lastMessage := Some(m);
    }

    /**
     * `sendMessage`: forwarded unchanged to the stored socket when there is one,
     * whether or not it is connected; silently dropped when there is none.
     */
    method Send(c: Command)
      requires Valid()
      modifies this
      ensures Valid()
      ensures outbox == old(outbox) + (if socket.Some? then [Frame(socket.value, c)] else [])
      ensures url == old(url) && socket == old(socket) && created == old(created) && closed == old(closed)
      ensures isConnected == old(isConnected) && lastMessage == old(lastMessage)
    {
      if socket.Some? {
        outbox := outbox + [Frame(socket.value, c)];
      }
    }
  }
}
