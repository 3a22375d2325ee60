# Spygram live-monitoring client, modelled in Dafny

Spygram's web client watches an Instagram account's followers. It keeps one
WebSocket open to a notification server. It sends `monitor` / `stopMonitor`
commands for a username, and turns each inbound `newFollower` / `lostFollower`
frame into an entry of a five-entry, newest-first feed plus one toast.

The model has four modules:

- `WebSocketHook` (websocket.dfy) covers the `useWebSocket` hook. Class
  `Connection` holds the hook's state: the url its effect last ran for, the
  stored socket, the sockets created and the ones closed, `isConnected`,
  `lastMessage`, and an `outbox` of every frame handed to `socket.send`.
  Its methods are the effect (`Connect`), its cleanup (`Teardown`), the socket
  callbacks (`Open`, `Close`, `Receive`) and `sendMessage` (`Send`).
  Its invariant `Valid` says that every socket created before the stored one
  has been closed.
- `PageLogic` (page_logic.dfy) holds the pure expressions of the page:
  - the feed entry built from a frame;
  - the feed update `Push`, checked against a separate reference feed
    `NewestFirst` (the last five frames, newest first);
  - the toast texts;
  - the command the switch sends;
  - the switch's enable condition.
- `Spygram` (page.dfy) holds class `Page`, the page component's state
  (`username`, `isMonitoring`, `notifications`, the toasts raised) over a
  `Connection`. Its methods are the page's handlers. Its invariant ties the
  feed to `NewestFirst` of every frame received, and the hook's `lastMessage`
  to the most recent frame. The module ends with client methods that run the
  handlers in fixed scenarios: `ToggleOnOffOn`, `RepeatedFrame`,
  `ToggleWithoutSocket`, `ToggleWhileConnecting`, `RenameWhileMonitoring`,
  `ChangeUrl` and `SendAfterTeardown`.
- `Wrappers` (wrappers.dfy) defines `Option`, which stands for `null`.

Frames are modelled already decoded, and outbound commands before encoding.
The browser's WebSocket, the server and the environment-supplied endpoint are
outside the model. The url is a parameter, and socket events are method calls.

Where the protocol's intent and the code differ, the model follows the code:
- The protocol intends commands to go out only on a connected channel, but
  `sendMessage` tests only that a socket object exists. A command issued while
  the socket is still connecting is handed to `socket.send`
  (`ToggleWhileConnecting`).
- The protocol knows two frame types; the code does not restrict them. Any type other than
  `newFollower` is titled "Lost Follower" with the verb "unfollowed", and the
  type string is copied into the feed entry unchanged.
- The hook never clears its `socket` state. After teardown, a send still goes
  to the closed socket (`SendAfterTeardown`).
- The socket handlers are never detached. A late `onclose` from a socket the
  hook has already replaced still clears `isConnected` (`Connection.Close`).

## Model

| member | source | states |
|---|---|---|
| `WebSocketHook.Connection.constructor` | src/hooks/useWebSockets.ts:12-14 | initially there is no socket, `isConnected` is false, `lastMessage` is null, nothing has been sent |
| `WebSocketHook.Connection.Connect` | src/hooks/useWebSockets.ts:16-37 | for an unchanged url nothing happens; for a new url the previous socket is closed, then a new socket with a fresh id is created and stored, not itself closed; the connection flag, last message and outbox are untouched; at most one socket is left unclosed |
| `WebSocketHook.Connection.Teardown` | src/hooks/useWebSockets.ts:34-36 | the stored socket is added to the closed sockets and stays stored; nothing else changes |
| `WebSocketHook.Connection.Open` | src/hooks/useWebSockets.ts:19-21 | an open event sets `isConnected` and changes nothing else |
| `WebSocketHook.Connection.Close` | src/hooks/useWebSockets.ts:23-25 | a close event clears `isConnected` from any state and changes nothing else |
| `WebSocketHook.Connection.Receive` | src/hooks/useWebSockets.ts:27-30 | the decoded frame replaces `lastMessage`, so only the latest is kept; nothing else changes |
| `WebSocketHook.Connection.Send` | src/hooks/useWebSockets.ts:39-46 | with a socket stored, the command is appended unchanged to the outbox, tagged with that socket, whether connected or not; with none, the outbox is unchanged |
| `PageLogic.ToNotification` | src/app/page.tsx:61-63 | the entry's type is the frame's type string, and its username and follower are those of the frame's data |
| `PageLogic.NotificationKeepsMessage` | src/app/page.tsx:61-63 | no two different frames give the same feed entry, and equal frames give equal entries |
| `PageLogic.Push` | src/app/page.tsx:62-64 | the new entry is the head; the tail is the first min(4, n) entries of the previous feed of length n, in the same order; the length is min(5, n+1), so never above 5 |
| `PageLogic.PushNewestFirst` | src/app/page.tsx:59-64 | pushing a new frame's entry onto the reference feed of a history gives the reference feed of the history extended by that frame: the feed is always the last five frames, newest first |
| `PageLogic.FeedAfter` | src/app/page.tsx:62-64 | the feed left by pushing the entries of any run of frames, in arrival order, onto an empty feed has at most five entries |
| `PageLogic.FeedAfterIsNewestFirst` | src/app/page.tsx:59-64 | for every run of frames into an empty feed, the feed built by successive pushes is the last five frames, newest first by arrival, so it never exceeds five entries |
| `PageLogic.SixFramesEvictOldest` | src/app/page.tsx:63 | after frames E1..E6 into an empty feed, both the feed built by pushes and the reference feed are exactly [E6,E5,E4,E3,E2]: E1 is evicted |
| `PageLogic.RepeatedFrameTwoEntries` | src/app/page.tsx:61-64 | a frame received twice in a row gives the feed's first two entries, both equal to it: no deduplication |
| `PageLogic.EventVerb` | src/app/page.tsx:67-69 | the verb is "followed" iff the type is "newFollower", otherwise "unfollowed" |
| `PageLogic.EventToast` | src/app/page.tsx:65-70 | the title is "New Follower" iff the type is "newFollower" and "Lost Follower" iff it is anything else, unknown types included; the text starts with "@follower", ends with "@username", and between them reads " has followed " or " has unfollowed " as `EventVerb` picks by type |
| `PageLogic.ToggleCommand` | src/app/page.tsx:75-77 | the command is `stopMonitor` iff monitoring and `monitor` iff not, and carries the current username |
| `PageLogic.ToggleToast` | src/app/page.tsx:80-85 | the title is "Monitoring Stopped" iff monitoring was on before the toggle, "Monitoring Started" iff it was off; the text ends with "@username" |
| `PageLogic.SwitchEnabled` | src/app/page.tsx:162 | the switch is enabled iff the channel is connected and the username is non-empty |
| `Spygram.Page.constructor` | src/app/page.tsx:38-44 | initially the username is empty, monitoring is off, the feed is empty, no toast has been raised, and the hook is in its initial state |
| `Spygram.Page.SetUsername` | src/app/page.tsx:146 | only the username changes: the monitoring flag, feed and toasts stay as they were, and the hook is untouched, so no stop command is sent |
| `Spygram.Page.Deliver` | src/app/page.tsx:59-72 | a frame becomes the hook's last message; the feed becomes `Push` of the previous feed and the frame's entry, stays at most five long, and equals the reference feed of all frames received; exactly one toast is raised; nothing else changes |
| `Spygram.Page.ToggleMonitor` | src/app/page.tsx:74-86 | the command chosen by the old flag is handed to the hook (dropped without a socket), the flag flips even then, and one toast chosen by the old flag is raised |
| `Spygram.Page.OnSwitch` | src/app/page.tsx:158-163 | when enabled, the flag flips and the command is always handed to `socket.send` of a stored socket; when disabled, nothing changes |
| `Spygram.ToggleOnOffOn` | src/app/page.tsx:74-86 | once connected, switching on, off, on for one username sends exactly monitor, stopMonitor, monitor in that order |
| `Spygram.RepeatedFrame` | src/app/page.tsx:59-72 | the same frame delivered twice gives two equal feed entries and two equal toasts |
| `Spygram.ToggleWithoutSocket` | src/app/page.tsx:74-79 | the handler called before a socket exists sends nothing, yet leaves the page monitoring |
| `Spygram.ToggleWhileConnecting` | src/hooks/useWebSockets.ts:39-46 | the handler called while a socket exists but is not yet connected still hands `monitor` to `socket.send` |
| `Spygram.RenameWhileMonitoring` | src/app/page.tsx:146 | renaming while monitoring leaves monitoring on and sends no stop command for the old username |
| `Spygram.ChangeUrl` | src/hooks/useWebSockets.ts:16-37 | after a url change the first socket is closed and the second is the stored one |
| `Spygram.SendAfterTeardown` | src/hooks/useWebSockets.ts:32-46 | after teardown the closed socket is still stored and a send is still forwarded to it |

## Left out

- Rendering, icons and layout (src/app/page.tsx:88-274): pure display driven by the modelled state.
- The follower list query (src/app/page.tsx:46-57): an HTTP request cached by an external query library. The only part with logic is that it is disabled while the username is empty (line 56), which the model does not represent.
- Spygram.Page.ToggleMonitor: the model's send never fails. In a browser, `socket.send` on a socket that is still connecting throws, and nothing catches it. `handleMonitorToggle` then stops at src/app/page.tsx:78, before the flag flips and before the toast (lines 79-85). The contract promises the flip and the toast in that state too. The state is reachable by `ToggleWhileConnecting`, and through `OnSwitch` after a url change while `isConnected` is still true from the old socket.
- The WebSocket transport itself: the handshake, its timing, and the browser's own rules. For example, a browser's `send` on a socket that is still connecting raises an error instead of sending. The outbox records what the hook hands to `send`, not what reaches the server.
- The endpoint from the environment (src/app/page.tsx:43): the url is a parameter of `Connection.Connect`.
- `JSON.parse` and `JSON.stringify` (src/hooks/useWebSockets.ts:28, src/app/page.tsx:76-77): frames are decoded values and commands are datatypes. A malformed frame makes the real `JSON.parse` throw, uncaught. Likewise the real spread `{ type, ...data }` would let an extra `type` key inside `data` override the frame's type. Neither is modelled.
- WebSocketHook.Connection.Open: open and message events require a stored socket on which `close()` has not been called, since a closed socket fires no further open or message events; the same holds for `Connection.Receive`. Close events only require that a socket exists. Events do not say which socket fired them, so a late close from a superseded socket acts like a close of the current socket.
- React scheduling and batching: each frame is processed exactly once, in arrival order, and each handler sees the state left by the previous one. With batching, the real page can coalesce frames or toggle twice on a stale flag; the model does not capture this.
- The toast library's internals (display limit, dismissal): toasts are recorded in the order they are raised.
- Unmounting the component, after which its state is gone: `Teardown` is modelled as the cleanup only.
