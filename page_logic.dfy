/**
 * The pure parts of the monitoring page (src/app/page.tsx): how an inbound
 * frame becomes a feed entry and a toast, the bounded newest-first feed, the
 * command and toast of the monitor switch, and when the switch is enabled.
 */
module PageLogic {
  import opened WebSocketHook

  /** The feed keeps at most this many entries (`slice(0, 5)`). */
  const FeedCapacity: nat := 5

  /** The only frame type titled as a gained follower. */
  const NewFollowerType: string := "newFollower"

  /** A feed entry: the frame's `type` with the fields of its `data` spread in. */
  datatype Notification = Notification(kind: string, username: string, follower: string)

  /** A toast raised on screen. */
  datatype Toast = Toast(title: string, description: string)

  function Min(a: int, b: int): int
  {
    if a <= b then a else b
  }

  /** The entry `{ type, ...data }`: the frame's type, then the username and follower of its data. */
  function ToNotification(m: InboundMessage): (n: Notification)
    ensures n.kind == m.kind
    ensures n.username == m.data.username && n.follower == m.data.follower
  {
    Notification(m.kind, m.data.username, m.data.follower)
  }

  /** A feed entry keeps everything the frame held, and nothing identifies a frame beyond its contents. */
  lemma NotificationKeepsMessage(m1: InboundMessage, m2: InboundMessage)
    ensures ToNotification(m1) == ToNotification(m2) <==> m1 == m2
  {
  }

  /**
   * The feed update `[n, ...prev].slice(0, 5)`: `n` becomes the head and the
   * rest is the first (at most four) entries of the previous feed, in order.
   */
  function Push(feed: seq<Notification>, n: Notification): (r: seq<Notification>)
    ensures |r| == Min(FeedCapacity, |feed| + 1) && |r| <= FeedCapacity
    ensures r[0] == n
    ensures r[1..] == feed[..Min(FeedCapacity - 1, |feed|)]
  {
    ([n] + feed)[..Min(FeedCapacity, |feed| + 1)]
  }

  /**
   * The reference feed after the frames of `history` arrived, oldest first:
   * the entries of the last (at most five) frames, the most recent first.
   */
  ghost function NewestFirst(history: seq<InboundMessage>): seq<Notification>
  {
    seq(Min(FeedCapacity, |history|),
        i requires 0 <= i < Min(FeedCapacity, |history|) => ToNotification(history[|history| - 1 - i]))
  }

  /** Pushing the entry of a new frame onto the reference feed gives the reference feed of the longer history. */
  lemma PushNewestFirst(history: seq<InboundMessage>, m: InboundMessage)
    ensures Push(NewestFirst(history), ToNotification(m)) == NewestFirst(history + [m])
  {
    var h := history + [m];
    var pushed := Push(NewestFirst(history), ToNotification(m));
    assert |pushed| == |NewestFirst(h)|;
    forall i | 0 <= i < |pushed|
      ensures pushed[i] == NewestFirst(h)[i]
    {
      if i > 0 {
        assert pushed[i] == pushed[1..][i - 1];
        assert h[|h| - 1 - i] == history[|history| - 1 - (i - 1)];
      }
    }
  }

  /**
   * The feed the page builds from an empty one by pushing the entry of each
   * frame of `frames` in arrival order.
   */
  function FeedAfter(frames: seq<InboundMessage>): (feed: seq<Notification>)
    ensures |feed| <= FeedCapacity
  {
    if frames == [] then []
    else Push(FeedAfter(frames[..|frames| - 1]), ToNotification(frames[|frames| - 1]))
  }

  /** For every run of frames, the feed built step by step is the reference newest-first feed. */
  lemma {:induction false} FeedAfterIsNewestFirst(frames: seq<InboundMessage>)
    ensures FeedAfter(frames) == NewestFirst(frames)
  {
    if frames != [] {
      var earlier, last := frames[..|frames| - 1], frames[|frames| - 1];
      FeedAfterIsNewestFirst(earlier);
      PushNewestFirst(earlier, last);
      assert earlier + [last] == frames;
    }
  }

  /** Six frames into an empty feed leave the last five, newest first; the first is evicted. */
  lemma SixFramesEvictOldest(e1: InboundMessage, e2: InboundMessage, e3: InboundMessage,
                             e4: InboundMessage, e5: InboundMessage, e6: InboundMessage)
    ensures NewestFirst([e1, e2, e3, e4, e5, e6]) ==
      [ToNotification(e6), ToNotification(e5), ToNotification(e4), ToNotification(e3), ToNotification(e2)]
    ensures FeedAfter([e1, e2, e3, e4, e5, e6]) ==
      [ToNotification(e6), ToNotification(e5), ToNotification(e4), ToNotification(e3), ToNotification(e2)]
  {
    FeedAfterIsNewestFirst([e1, e2, e3, e4, e5, e6]);
    var r := NewestFirst([e1, e2, e3, e4, e5, e6]);
    assert |r| == 5;
    assert r[0] == ToNotification(e6) && r[1] == ToNotification(e5) && r[2] == ToNotification(e4);
    assert r[3] == ToNotification(e3) && r[4] == ToNotification(e2);
  }

  /** The same frame twice heads the feed twice: there is no deduplication. */
  lemma RepeatedFrameTwoEntries(history: seq<InboundMessage>, m: InboundMessage)
    ensures NewestFirst(history + [m, m])[..2] == [ToNotification(m), ToNotification(m)]
  {
    var r := NewestFirst(history + [m, m]);
    assert r[0] == ToNotification(m) && r[1] == ToNotification(m);
  }

  /** The past-tense verb of a frame's toast. */
  function EventVerb(kind: string): (v: string)
    ensures v == "followed" <==> kind == NewFollowerType
    ensures v != "followed" ==> v == "unfollowed"
  {
    if kind == NewFollowerType then "followed" else "unfollowed"
  }

  /**
   * The toast raised for an inbound frame. The title is "New Follower" exactly
   * for type "newFollower" and "Lost Follower" for every other type; the text
   * begins with "@follower" and ends with "@username".
   */
  function EventToast(m: InboundMessage): (t: Toast)
    ensures t.title == "New Follower" <==> m.kind == NewFollowerType
    ensures t.title == "Lost Follower" <==> m.kind != NewFollowerType
    ensures |t.description| >= 2 + |m.data.follower| + |m.data.username|
    ensures t.description[..1 + |m.data.follower|] == "@" + m.data.follower
    ensures t.description[|t.description| - 1 - |m.data.username|..] == "@" + m.data.username
    ensures t.description[1 + |m.data.follower|..|t.description| - 1 - |m.data.username|] ==
      " has " + EventVerb(m.kind) + " "
  {
    var follower := "@" + m.data.follower;
    var rest := " has " + EventVerb(m.kind) + " @" + m.data.username;
    assert rest[|rest| - 1 - |m.data.username|..] == "@" + m.data.username;
    Toast(if m.kind == NewFollowerType then "New Follower" else "Lost Follower", follower + rest)
  }

  /** The command the switch sends: stop when monitoring, start otherwise, for the current username. */
  function ToggleCommand(isMonitoring: bool, username: string): (c: Command)
    ensures c.username == username
    ensures c.StopMonitor? <==> isMonitoring
    ensures c.Monitor? <==> !isMonitoring
  {
    if isMonitoring then StopMonitor(username) else Monitor(username)
  }

  /** The toast of the switch, chosen by the monitoring flag as it was before the toggle. */
  function ToggleToast(wasMonitoring: bool, username: string): (t: Toast)
    ensures t.title == "Monitoring Stopped" <==> wasMonitoring
    ensures t.title == "Monitoring Started" <==> !wasMonitoring
    ensures |t.description| > |username|
    ensures t.description[|t.description| - 1 - |username|..] == "@" + username
  {
    var head := if wasMonitoring then "Stopped monitoring" else "Now monitoring";
    var tail := "@" + username;
    assert (head + " " + tail)[|head + " " + tail| - |tail|..] == tail;
    Toast(if wasMonitoring then "Monitoring Stopped" else "Monitoring Started", head + " " + tail)
  }

  /** The switch is enabled (`disabled={!isConnected || !username}` is false) iff connected and a username is set. */
  function SwitchEnabled(isConnected: bool, username: string): (enabled: bool)
    ensures enabled <==> isConnected && |username| > 0
  {
    !(!isConnected || username == "")
  }
}
