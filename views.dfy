/**
 * The HTTP views around an audit: `RunAudit.post` starts a task,
 * `AuditTaskStatus.post` reports on one, and the two server-sent-event
 * streams turn Redis pub/sub entries into SSE frames: one stream per task
 * (`AuditStreamingSSR`) and one for every task (`GlobalProgressBar`).
 */
module Views {
  import opened Wrappers
  import opened Text
  import opened AuditUtils

  // ---------------------------------------------------------------------
  // The progress stream of one task
  // ---------------------------------------------------------------------

  /**
   * A decoded message payload: a falsy JSON value (`null`, `{}`, ...), or
   * an object with the three keys the stream reads, each possibly absent.
   */
  datatype Payload =
    | Falsy
    | Object(userId: Option<int>, count: Option<int>, total: Option<int>)

  /** One entry of `pubsub.listen()`: its `type` and its decoded `data`. */
  datatype Entry = Entry(kind: string, data: Payload)

  /** The requesting user: `request.user.id` (None when anonymous) and `is_staff`. */
  datatype Requester = Requester(id: Option<int>, isStaff: bool)

  /** The four kinds of frame the stream yields. */
  datatype Frame = Data(p: Payload) | Complete(p: Payload) | TaskNotFound | Unauthorized

  /** The requester may see the payload: same user id, or staff. */
  predicate Allowed(req: Requester, p: Payload)
    requires p.Object?
  {
    req.id == p.userId || req.isStaff
  }

  /** `total > 0 and processed >= total`, with a missing count or total read as 0. */
  predicate Completes(p: Payload)
    requires p.Object?
  {
    var total := p.total.GetOr(0);
    total > 0 && p.count.GetOr(0) >= total
  }

  /** The frames `event_stream` yields for a finite run of entries. */
  function Stream(entries: seq<Entry>, req: Requester): seq<Frame>
    decreases |entries|
  {
    if entries == [] then []
    else if entries[0].kind != "message" then Stream(entries[1..], req)
    else
      var p := entries[0].data;
      if p.Falsy? then [TaskNotFound]
      else if !Allowed(req, p) then [Unauthorized]
      else if Completes(p) then [Data(p), Complete(p)]
      else [Data(p)] + Stream(entries[1..], req)
  }

  /** The bytes of a frame; `dumps` stands for `json.dumps`. */
  function FrameText(f: Frame, dumps: Payload -> string): (t: string)
    ensures EndsWith(t, "\n\n")
    ensures (f.Data? || f.Complete?) ==> EndsWith(t, "data: " + dumps(f.p) + "\n\n")
    ensures f.Data? ==> t == "data: " + dumps(f.p) + "\n\n"
  {
    match f
    case Data(p) => "data: " + dumps(p) + "\n\n"
    case Complete(p) => "event: complete\n" + ("data: " + dumps(p) + "\n\n")
    case TaskNotFound => "event: error\ndata: Task not found\n\n"
    case Unauthorized => "event: error\ndata: Unauthorized\n\n"
  }

  /**
   * `event_stream` of `AuditStreamingSSR`: skip entries that are not
   * messages, stop with an error frame on a falsy payload or a foreign
   * user's payload, otherwise yield the data frame and stop after it with
   * a `complete` frame once the count has reached a positive total.
   */
  method EventStream(entries: seq<Entry>, req: Requester) returns (frames: seq<Frame>)
    ensures frames == Stream(entries, req)
  {
    frames := [];
    var i := 0;
    while i < |entries|
      invariant 0 <= i <= |entries|
      invariant frames + Stream(entries[i..], req) == Stream(entries, req)
    {
      var e := entries[i];
      assert entries[i..][0] == e && entries[i..][1..] == entries[i + 1..];
      if e.kind != "message" {
        i := i + 1;
        continue;
      }
      var progress := e.data;
      if progress.Falsy? {
        frames := frames + [TaskNotFound];
        break;
      }
      if req.id != progress.userId && !req.isStaff {
        frames := frames + [Unauthorized];
        break;
      }
      var processed := progress.count.GetOr(0);
      var total := progress.total.GetOr(0);
      frames := frames + [Data(progress)];
      if total > 0 && processed >= total {
        frames := frames + [Complete(progress)];
        break;
      }
      assert frames + Stream(entries[i + 1..], req) == Stream(entries, req);
      i := i + 1;
    }
  }

  /** The entries whose type is `"message"`, in order. */
  function MessagesOnly(entries: seq<Entry>): (ms: seq<Entry>)
    ensures |ms| <= |entries|
    ensures forall i :: 0 <= i < |ms| ==> ms[i].kind == "message"
    decreases |entries|
  {
    if entries == [] then []
    else if entries[0].kind == "message" then [entries[0]] + MessagesOnly(entries[1..])
    else MessagesOnly(entries[1..])
  }

  /** Entries of any other type (subscribe confirmations, ...) have no effect on the frames. */
  lemma {:induction false} StreamIgnoresOtherTypes(entries: seq<Entry>, req: Requester)
    ensures Stream(entries, req) == Stream(MessagesOnly(entries), req)
    decreases |entries|
  {
    if entries != [] {
      StreamIgnoresOtherTypes(entries[1..], req);
      if entries[0].kind == "message" {
        var ms := MessagesOnly(entries);
        assert ms[0] == entries[0] && ms[1..] == MessagesOnly(entries[1..]);
      }
    }
  }

  /** Every frame but the last is a data frame. */
  predicate DataBeforeLast(fs: seq<Frame>) {
    forall i :: 0 <= i < |fs| - 1 ==> fs[i].Data?
  }

  /** Only the last frame can end the stream: every earlier one is a data frame. */
  lemma {:induction false} OnlyLastFrameTerminal(entries: seq<Entry>, req: Requester)
    ensures DataBeforeLast(Stream(entries, req))
    decreases |entries|
  {
    if entries != [] {
      OnlyLastFrameTerminal(entries[1..], req);
      var e := entries[0];
      if e.kind == "message" && e.data.Object? && Allowed(req, e.data) && !Completes(e.data) {
        var rest := Stream(entries[1..], req);
        assert Stream(entries, req) == [Data(e.data)] + rest;
        forall i | 0 <= i < |rest|
          ensures Stream(entries, req)[i].Data?
        {
          if i > 0 {
            assert Stream(entries, req)[i] == rest[i - 1];
          }
        }
      }
    }
  }

  /**
   * A `complete` frame is the last frame, it follows the data frame of the
   * same payload, and that payload's count has reached its positive total.
   */
  lemma {:induction false} CompleteFrameMeaning(entries: seq<Entry>, req: Requester, i: nat)
    requires i < |Stream(entries, req)| && Stream(entries, req)[i].Complete?
    ensures var fs := Stream(entries, req);
      && i == |fs| - 1 && i > 0
      && fs[i - 1] == Data(fs[i].p)
      && fs[i].p.Object? && Completes(fs[i].p)
    decreases |entries|
  {
    var e := entries[0];
    if e.kind == "message" && e.data.Object? && Allowed(req, e.data) && !Completes(e.data) {
      var rest := Stream(entries[1..], req);
      assert Stream(entries, req) == [Data(e.data)] + rest;
      CompleteFrameMeaning(entries[1..], req, i - 1);
      if i > 1 {
        assert Stream(entries, req)[i - 1] == rest[i - 2];
      }
    } else if e.kind != "message" {
      CompleteFrameMeaning(entries[1..], req, i);
    }
  }

  /** Every data frame carries an object payload the requester is allowed to see. */
  lemma {:induction false} DataFramesAllowed(entries: seq<Entry>, req: Requester)
    ensures forall f :: f in Stream(entries, req) && f.Data? ==> f.p.Object? && Allowed(req, f.p)
    decreases |entries|
  {
    if entries != [] {
      DataFramesAllowed(entries[1..], req);
    }
  }

  /** With every total missing or not positive, the stream never completes. */
  lemma {:induction false} ZeroTotalNeverCompletes(entries: seq<Entry>, req: Requester)
    requires forall i :: 0 <= i < |entries| && entries[i].data.Object? ==> entries[i].data.total.GetOr(0) <= 0
    ensures forall f :: f in Stream(entries, req) ==> !f.Complete?
    decreases |entries|
  {
    if entries != [] {
      ZeroTotalNeverCompletes(entries[1..], req);
    }
  }

  /** The message does not stop the stream. */
  predicate PassesThrough(req: Requester, e: Entry) {
    e.kind != "message" || (e.data.Object? && Allowed(req, e.data) && !Completes(e.data))
  }

  /** One data frame per message. */
  function DataFrames(ms: seq<Entry>): (fs: seq<Frame>)
    ensures |fs| == |ms| && forall i :: 0 <= i < |ms| ==> fs[i] == Data(ms[i].data)
  {
    seq(|ms|, i requires 0 <= i < |ms| => Data(ms[i].data))
  }

  /** While no message stops it, the stream yields exactly one data frame per message, in order. */
  lemma {:induction false} OpenStream(entries: seq<Entry>, req: Requester)
    requires forall i :: 0 <= i < |entries| ==> PassesThrough(req, entries[i])
    ensures Stream(entries, req) == DataFrames(MessagesOnly(entries))
    decreases |entries|
  {
    if entries != [] {
      OpenStream(entries[1..], req);
      if entries[0].kind == "message" {
        var ms := MessagesOnly(entries);
        assert ms == [entries[0]] + MessagesOnly(entries[1..]);
        assert DataFrames(ms) == [Data(entries[0].data)] + DataFrames(MessagesOnly(entries[1..]));
      }
    }
  }

  /** The payload a subscriber decodes from a message `TaskProgress.publish_update` sent. */
  function Decoded(p: Progress): (d: Payload)
    ensures d.Object? && d.userId == p.userId && d.count == Some(p.count) && d.total == Some(p.total)
  {
    Object(p.userId, Some(p.count), Some(p.total))
  }

  /** The entries a task's subscriber sees for the tracker's published messages. */
  function Delivered(msgs: seq<Message>): (es: seq<Entry>)
    ensures |es| == |msgs|
    ensures forall i :: 0 <= i < |msgs| ==> es[i] == Entry("message", Decoded(msgs[i].data))
  {
    seq(|msgs|, i requires 0 <= i < |msgs| => Entry("message", Decoded(msgs[i].data)))
  }

  /**
   * The tracker always publishes a non-empty record, so a stream fed only
   * object payloads never reports a missing task.
   */
  lemma {:induction false} PublishedNeverNotFound(entries: seq<Entry>, req: Requester)
    requires forall i :: 0 <= i < |entries| ==> entries[i].data.Object?
    ensures TaskNotFound !in Stream(entries, req)
    decreases |entries|
  {
    if entries != [] {
      PublishedNeverNotFound(entries[1..], req);
    }
  }

  /** A requester who is the task's owner sees every published update until one completes. */
  lemma {:induction false} OwnerFollowsTask(msgs: seq<Message>, req: Requester)
    requires forall i :: 0 <= i < |msgs| ==> msgs[i].data.userId == req.id
    requires forall i :: 0 <= i < |msgs| ==> !(msgs[i].data.total > 0 && msgs[i].data.count >= msgs[i].data.total)
    ensures Stream(Delivered(msgs), req) == DataFrames(Delivered(msgs))
  {
    var es := Delivered(msgs);
    forall i | 0 <= i < |es|
      ensures PassesThrough(req, es[i])
    {
      assert es[i] == Entry("message", Decoded(msgs[i].data));
    }
    OpenStream(es, req);
    AllMessages(es);
  }

  lemma {:induction false} AllMessages(es: seq<Entry>)
    requires forall i :: 0 <= i < |es| ==> es[i].kind == "message"
    ensures MessagesOnly(es) == es
    decreases |es|
  {
    if es != [] {
      AllMessages(es[1..]);
      assert es == [es[0]] + es[1..];
    }
  }

  // ---------------------------------------------------------------------
  // The progress stream of every task
  // ---------------------------------------------------------------------

  /**
   * The `channel` of a pattern message: a `str`, or the raw `bytes` a
   * client without `decode_responses` delivers (its bytes given as the
   * characters of the same codes).
   */
  datatype Channel = Text(name: string) | Bytes(raw: string)

  /** One entry of the pattern subscription: its `type` (always a `str`), its `channel` and its parsed `data`. */
  datatype PEntry = PEntry(kind: string, channel: Channel, data: map<string, string>)

  /** The first index of `c` in `s`. */
  function IndexOf(s: string, c: char): (k: Option<nat>)
    ensures k.None? <==> c !in s
    ensures k.Some? ==> k.value < |s| && s[k.value] == c && c !in s[..k.value]
    decreases |s|
  {
    if s == [] then None
    else if s[0] == c then Some(0)
    else
      var k := IndexOf(s[1..], c);
      assert forall x :: x in s <==> x == s[0] || x in s[1..];
      if k.None? then None
      else
        assert s[..k.value + 1] == [s[0]] + s[1..][..k.value];
        Some(k.value + 1)
  }

  /** Python's `s.split(c)` for a one-character separator. */
  function Split(s: string, c: char): (ps: seq<string>)
    ensures |ps| >= 1
    ensures |ps| == 1 <==> c !in s
    ensures forall i :: 0 <= i < |ps| ==> c !in ps[i]
    decreases |s|
  {
    match IndexOf(s, c)
    case None => [s]
    case Some(k) => [s[..k]] + Split(s[k + 1..], c)
  }

  /** One cut of `split`: the piece before the first separator, then the pieces of the rest. */
  lemma SplitUnfold(s: string, c: char, k: nat)
    requires IndexOf(s, c) == Some(k)
    ensures Split(s, c) == [s[..k]] + Split(s[k + 1..], c)
  {
  }

  /** Joining the piece before a separator with the pieces after it. */
  lemma JoinAround(s: string, c: char, k: nat, rest: seq<string>)
    requires k < |s| && s[k] == c && rest != [] && Join([c], rest) == s[k + 1..]
    ensures Join([c], [s[..k]] + rest) == s
  {
    JoinCons([c], s[..k], rest);
    assert s == s[..k] + [c] + s[k + 1..];
  }

  /** Splitting and joining back with the same separator gives the string again. */
  lemma {:induction false} SplitJoin(s: string, c: char)
    ensures Join([c], Split(s, c)) == s
    decreases |s|
  {
    var k := IndexOf(s, c);
    if k.None? {
      assert Split(s, c) == [s];
    } else {
      SplitJoin(s[k.value + 1..], c);
      SplitUnfold(s, c, k.value);
      JoinAround(s, c, k.value, Split(s[k.value + 1..], c));
    }
  }

  /** `channel.split(":")[1]`; None where the index is out of range. */
  function TaskTag(channel: string): (t: Option<string>)
    ensures t.None? <==> ':' !in channel
    ensures t.Some? ==> ':' !in t.value
  {
    var ps := Split(channel, ':');
    if |ps| < 2 then None else Some(ps[1])
  }

  /** The first `c` after a prefix free of `c` is the one right after the prefix. */
  lemma {:induction false} IndexOfAfter(a: string, c: char, b: string)
    requires c !in a
    ensures IndexOf(a + [c] + b, c) == Some(|a|)
    decreases |a|
  {
    if a != [] {
      var s := a + [c] + b;
      assert s[0] == a[0] && s[1..] == a[1..] + [c] + b;
      IndexOfAfter(a[1..], c, b);
    }
  }

  /** After a prefix free of `:`, the tag is the first `:`-segment of the rest. */
  lemma TagAfterPrefix(pre: string, rest: string)
    requires ':' !in pre
    ensures TaskTag(pre + [':'] + rest) == Some(Split(rest, ':')[0])
  {
    var s := pre + [':'] + rest;
    IndexOfAfter(pre, ':', rest);
    assert s[..|pre|] == pre && s[|pre| + 1..] == rest;
  }

  lemma UpdatesChannelShape(id: string)
    ensures UpdatesChannel(id) == "task_updates" + [':'] + id && ':' !in "task_updates"
  {
  }

  /** The tag of a task's update channel is the task's id, for an id without `:`. */
  lemma TagOfUpdatesChannel(id: string)
    requires ':' !in id
    ensures TaskTag(UpdatesChannel(id)) == Some(id)
  {
    UpdatesChannelShape(id);
    TagAfterPrefix("task_updates", id);
  }

  /** An id that holds `:` is cut at its first `:`. */
  lemma TagCutsAtColon(a: string, b: string)
    requires ':' !in a
    ensures TaskTag(UpdatesChannel(a + [':'] + b)) == Some(a)
  {
    UpdatesChannelShape(a + [':'] + b);
    TagAfterPrefix("task_updates", a + [':'] + b);
    IndexOfAfter(a, ':', b);
    assert (a + [':'] + b)[..|a|] == a;
  }

  /** What `event_stream` of `GlobalProgressBar` yields, and whether it raised. */
  datatype GlobalRun = GlobalRun(frames: seq<map<string, string>>, raised: bool)

  /**
   * `task_channel.split(":")[1]` as written: a `bytes` channel has no
   * `split` with a `str` separator and raises `TypeError`; a `str`
   * channel without `:` raises at the index. None stands for the raise.
   */
  function SplitTag(c: Channel): (t: Option<string>)
    ensures t.None? <==> c.Bytes? || ':' !in c.name
  {
    match c
    case Text(name) => TaskTag(name)
    case Bytes(_) => None
  }

  /** The same with the channel decoded first, as evidently intended; only a channel without `:` raises. */
  function DecodedTag(c: Channel): (t: Option<string>)
    ensures t == TaskTag(match c case Text(name) => name case Bytes(raw) => raw)
    ensures c.Text? ==> t == SplitTag(c)
  {
    match c
    case Text(name) => TaskTag(name)
    case Bytes(raw) => TaskTag(raw)
  }

  /** The stream over `entries` when `tag` computes each message's `task_id`: skip other entries, end at the first raise. */
  function GlobalBy(entries: seq<PEntry>, tag: Channel -> Option<string>): GlobalRun
    decreases |entries|
  {
    if entries == [] then GlobalRun([], false)
    else if entries[0].kind != "pmessage" then GlobalBy(entries[1..], tag)
    else match tag(entries[0].channel)
      case None => GlobalRun([], true)
      case Some(id) =>
        var rest := GlobalBy(entries[1..], tag);
        GlobalRun([entries[0].data["task_id" := id]] + rest.frames, rest.raised)
  }

  /** `event_stream` of `GlobalProgressBar` as written. */
  function Global(entries: seq<PEntry>): GlobalRun {
    GlobalBy(entries, SplitTag)
  }

  /** `event_stream` of `GlobalProgressBar` with each channel decoded before the split. */
  function GlobalDecoded(entries: seq<PEntry>): GlobalRun {
    GlobalBy(entries, DecodedTag)
  }

  /**
   * `event_stream` of `GlobalProgressBar`: forward every `pmessage` entry,
   * tagged with the second `:`-separated segment of its channel as
   * `task_id`; a split that raises ends the stream.
   */
  method GlobalStream(entries: seq<PEntry>) returns (frames: seq<map<string, string>>, raised: bool)
    ensures GlobalRun(frames, raised) == Global(entries)
  {
    frames := [];
    raised := false;
    var i := 0;
    while i < |entries|
      invariant 0 <= i <= |entries|
      invariant GlobalRun(frames + GlobalBy(entries[i..], SplitTag).frames, GlobalBy(entries[i..], SplitTag).raised) == Global(entries)
    {
      var e := entries[i];
      assert entries[i..][0] == e && entries[i..][1..] == entries[i + 1..];
      if e.kind != "pmessage" {
        i := i + 1;
        continue;
      }
      var tag := SplitTag(e.channel);
      if tag.None? {
        raised := true;
        return;
      }
      frames := frames + [e.data["task_id" := tag.value]];
      i := i + 1;
    }
  }

  /** The stream raises iff some forwarded entry's tag raises. */
  lemma {:induction false} GlobalByRaisesIff(entries: seq<PEntry>, tag: Channel -> Option<string>)
    ensures GlobalBy(entries, tag).raised <==>
      exists i :: 0 <= i < |entries| && entries[i].kind == "pmessage" && tag(entries[i].channel).None?
    decreases |entries|
  {
    if entries != [] {
      GlobalByRaisesIff(entries[1..], tag);
      assert forall i :: 1 <= i < |entries| ==> entries[i] == entries[1..][i - 1];
      if GlobalBy(entries[1..], tag).raised {
        var j :| 0 <= j < |entries[1..]| && entries[1..][j].kind == "pmessage" && tag(entries[1..][j].channel).None?;
        assert entries[j + 1] == entries[1..][j];
      }
    }
  }

  /** As written, the stream raises iff some pattern message has a `bytes` channel or one without `:`. */
  lemma GlobalRaisesIff(entries: seq<PEntry>)
    ensures Global(entries).raised <==>
      exists i :: 0 <= i < |entries| && entries[i].kind == "pmessage"
        && (entries[i].channel.Bytes? || ':' !in entries[i].channel.name)
  {
    GlobalByRaisesIff(entries, SplitTag);
  }

  /** The number of entries of type `"pmessage"`. */
  function PMessageCount(entries: seq<PEntry>): (n: nat)
    ensures n <= |entries|
    decreases |entries|
  {
    if entries == [] then 0
    else (if entries[0].kind == "pmessage" then 1 else 0) + PMessageCount(entries[1..])
  }

  /**
   * Without a raise, one frame per `pmessage` entry, each holding the
   * entry's data plus a `task_id`.
   */
  lemma {:induction false} GlobalOneFramePerMessage(entries: seq<PEntry>, tag: Channel -> Option<string>)
    requires !GlobalBy(entries, tag).raised
    ensures |GlobalBy(entries, tag).frames| == PMessageCount(entries)
    ensures forall f :: f in GlobalBy(entries, tag).frames ==> "task_id" in f
    decreases |entries|
  {
    if entries != [] {
      GlobalOneFramePerMessage(entries[1..], tag);
    }
  }

  /**
   * The module-level client is created without `decode_responses`, so
   * every channel arrives as `bytes`: as written the stream yields no
   * frame at all, and it raises at the first pattern message.
   */
  lemma {:induction false} UndecodedChannelsYieldNothing(entries: seq<PEntry>)
    requires forall i :: 0 <= i < |entries| ==> entries[i].channel.Bytes?
    ensures Global(entries).frames == []
    ensures Global(entries).raised <==> PMessageCount(entries) > 0
    decreases |entries|
  {
    if entries != [] {
      assert forall i :: 0 <= i < |entries[1..]| ==> entries[1..][i] == entries[i + 1];
      UndecodedChannelsYieldNothing(entries[1..]);
    }
  }

  /** `ids[i]` is the id of the task whose update channel carried entry `i`, for each pattern message. */
  predicate FromTaskChannels(entries: seq<PEntry>, ids: seq<string>) {
    |ids| == |entries|
    && forall i :: 0 <= i < |entries| && entries[i].kind == "pmessage" ==>
         ':' !in ids[i] && entries[i].channel in {Text(UpdatesChannel(ids[i])), Bytes(UpdatesChannel(ids[i]))}
  }

  /** Every pattern message's data, tagged with the id of the task it came from, in order. */
  function Tagged(entries: seq<PEntry>, ids: seq<string>): seq<map<string, string>>
    requires |ids| == |entries|
    decreases |entries|
  {
    if entries == [] then []
    else if entries[0].kind != "pmessage" then Tagged(entries[1..], ids[1..])
    else [entries[0].data["task_id" := ids[0]]] + Tagged(entries[1..], ids[1..])
  }

  /**
   * With the channels decoded, updates published by `TaskProgress` (ids
   * without `:`) never raise, and every one is forwarded, tagged with the
   * id of its own task, str or bytes alike.
   */
  lemma {:induction false} DecodedChannelsTagEveryUpdate(entries: seq<PEntry>, ids: seq<string>)
    requires FromTaskChannels(entries, ids)
    ensures GlobalDecoded(entries) == GlobalRun(Tagged(entries, ids), false)
    decreases |entries|
  {
    if entries != [] {
      assert FromTaskChannels(entries[1..], ids[1..]) by {
        forall i | 0 <= i < |entries[1..]| && entries[1..][i].kind == "pmessage"
          ensures ':' !in ids[1..][i] && entries[1..][i].channel in {Text(UpdatesChannel(ids[1..][i])), Bytes(UpdatesChannel(ids[1..][i]))}
        {
          assert entries[1..][i] == entries[i + 1] && ids[1..][i] == ids[i + 1];
        }
      }
      DecodedChannelsTagEveryUpdate(entries[1..], ids[1..]);
      if entries[0].kind == "pmessage" {
        TagOfUpdatesChannel(ids[0]);
      }
    }
  }

  // ---------------------------------------------------------------------
  // Starting an audit
  // ---------------------------------------------------------------------

  /**
   * `request.data.get("reaudit")`: absent or null, a JSON string, a JSON
   * boolean, or any other JSON value (a number, a list, an object), of
   * which only its truthiness matters.
   */
  datatype Flag = NoFlag | FlagText(s: string) | FlagBool(b: bool) | FlagOther(truthy: bool)

  /**
   * The re-audit flag as written: a truthy value is lowered and compared
   * with `True`. A string never equals a boolean, so the flag is never set;
   * a JSON `true`, or any other truthy value that is not a string, has no
   * `lower` and raises (None).
   */
  function ParseReaudit(f: Flag): (r: Option<bool>)
    ensures r != Some(true)
    ensures r.None? <==> f == FlagBool(true) || f == FlagOther(true)
  {
    match f
    case NoFlag => Some(false)
    case FlagText(s) => Some(false)
    case FlagBool(b) => if b then None else Some(false)
    case FlagOther(truthy) => if truthy then None else Some(false)
  }

  /** `"reaudit": "true"` does not ask for a re-audit. */
  lemma ReauditTextTrueIgnored()
    ensures ParseReaudit(FlagText("true")) == Some(false)
  {
  }

  /** The flag as intended: the text `"true"` in any case, or a JSON `true`. */
  function ParseReauditIntended(f: Flag): (r: bool)
    ensures r <==> (f.FlagText? && Lower(f.s) == "true") || f == FlagBool(true)
  {
    match f
    case NoFlag => false
    case FlagText(s) => Lower(s) == "true"
    case FlagBool(b) => b
    case FlagOther(_) => false
  }

  /** The intended flag accepts `"True"` and `"TRUE"` and rejects `"false"`. */
  lemma IntendedReauditCases()
    ensures ParseReauditIntended(FlagText("True")) && ParseReauditIntended(FlagText("TRUE"))
    ensures !ParseReauditIntended(FlagText("false")) && !ParseReauditIntended(NoFlag)
  {
    assert Lower("True") == "true";
    assert Lower("TRUE") == "true";
    assert Lower("false")[0] == 'f';
  }

  /** The body of a start request. */
  datatype AuditRequest = AuditRequest(productListId: Option<int>, reaudit: Flag)

  /** `if not product_list_id`: absent, null or 0. */
  predicate IdGiven(req: AuditRequest) {
    req.productListId.Some? && req.productListId.value != 0
  }

  /** The answers of `RunAudit.post`; `ServerError` is an exception the view does not catch. */
  datatype PostResponse =
    | Accepted(message: string, taskId: string)
    | BadRequest(detail: string)
    | NotFound(detail: string)
    | ServerError

  /** The HTTP status of each answer: only an accepted start is a success, and only a server error is a 5xx. */
  function PostStatusCode(r: PostResponse): (code: int)
    ensures code == 202 <==> r.Accepted?
    ensures 400 <= code < 500 <==> r.BadRequest? || r.NotFound?
    ensures code == 500 <==> r.ServerError?
  {
    match r
    case Accepted(_, _) => 202
    case BadRequest(_) => 400
    case NotFound(_) => 404
    case ServerError => 500
  }

  /**
   * What the world says to the view: whether Celery answers its ping,
   * whether the `admin` user exists, the admin's lists (id to name),
   * whether `delay` raises, and the id Celery gives the new task.
   */
  datatype Backend = Backend(celeryUp: bool, adminExists: bool, adminLists: map<int, string>, delayFails: bool, taskId: string)

  /** The request reaches `run_audit_task.delay`. */
  predicate Dispatches(req: AuditRequest, b: Backend) {
    b.celeryUp && ParseReaudit(req.reaudit).Some? && IdGiven(req) && b.adminExists
    && req.productListId.value in b.adminLists && !b.delayFails
  }

  /** The steps of `RunAudit.post`, in order, as a function of the request and the backend. */
  function PostOutcome(req: AuditRequest, b: Backend): PostResponse {
    if !b.celeryUp then BadRequest("Celery Service is Down")
    else if ParseReaudit(req.reaudit).None? then ServerError
    else if !IdGiven(req) then BadRequest("Product list ID is required")
    else if !b.adminExists then ServerError
    else if req.productListId.value !in b.adminLists then NotFound("Product list not found")
    else if b.delayFails then ServerError
    else Accepted("Audit started for " + b.adminLists[req.productListId.value], b.taskId)
  }

  /** The request is accepted exactly when it is dispatched, and then it names its list and its task. */
  lemma AcceptedIffDispatched(req: AuditRequest, b: Backend)
    ensures PostOutcome(req, b).Accepted? <==> Dispatches(req, b)
    ensures PostOutcome(req, b).Accepted? ==>
      PostOutcome(req, b).taskId == b.taskId
      && PostOutcome(req, b).message == "Audit started for " + b.adminLists[req.productListId.value]
  {
  }

  /** The Celery ping comes first: with Celery down every request gets a 400, whatever it holds. */
  lemma CeleryDownFirst(req: AuditRequest, b: Backend)
    requires !b.celeryUp
    ensures PostStatusCode(PostOutcome(req, b)) == 400
  {
  }

  /** A JSON `true` for `reaudit` raises before the id is even looked at. */
  lemma BooleanReauditRaises(b: Backend)
    requires b.celeryUp
    ensures PostOutcome(AuditRequest(None, FlagBool(true)), b) == ServerError
  {
  }

  /** The view of `RunAudit`, with the Redis counter `AUDIT_INSTANCES_` and the tasks sent to Celery. */
  class RunAuditView {
    var instances: int
    var dispatched: seq<(int, bool)>

    constructor (instances: int)
      ensures this.instances == instances && dispatched == []
    {
      this.instances := instances;
      dispatched := [];
    }

    /**
     * `RunAudit.post`: the counter goes up before `delay` and down in the
     * `finally`, so it ends where it began; a dispatched task always
     * carries `reaudit = False`.
     */
    method Post(req: AuditRequest, b: Backend) returns (resp: PostResponse)
      modifies this
      ensures resp == PostOutcome(req, b)
      ensures instances == old(instances)
      ensures dispatched == old(dispatched) + (if Dispatches(req, b) then [(req.productListId.value, false)] else [])
    {
      if !b.celeryUp {
        return BadRequest("Celery Service is Down");
      }
      var reaudit := ParseReaudit(req.reaudit);
      if reaudit.None? {
        return ServerError;
      }
      if !IdGiven(req) {
        return BadRequest("Product list ID is required");
      }
      if !b.adminExists {
        return ServerError;
      }
      var id := req.productListId.value;
      if id !in b.adminLists {
        return NotFound("Product list not found");
      }
      instances := instances + 1;
      if b.delayFails {
        resp := ServerError;
      } else {
        dispatched := dispatched + [(id, reaudit.value)];
        resp := Accepted("Audit started for " + b.adminLists[id], b.taskId);
      }
      instances := instances - 1;
    }
  }

  /** Whatever the request says, a dispatched task is never a re-audit. */
  lemma DispatchedNeverReaudit(req: AuditRequest, b: Backend)
    requires Dispatches(req, b)
    ensures ParseReaudit(req.reaudit) == Some(false)
  {
  }

  // ---------------------------------------------------------------------
  // Polling a task
  // ---------------------------------------------------------------------

  /** `str(result.result)`, which may itself raise. */
  datatype TaskResult = Printable(text: string) | Unprintable(error: string)

  /** What Celery's `AsyncResult` reports: its status, `ready()`, and its result. */
  datatype TaskState = TaskState(status: string, ready: bool, result: TaskResult)

  datatype StatusResponse =
    | MissingTaskId
    | StatusBody(taskId: string, status: string, result: Option<string>)

  /** `AuditTaskStatus.post`. */
  function TaskStatus(taskId: Option<string>, state: TaskState): (r: StatusResponse)
    ensures r.MissingTaskId? <==> taskId.None? || taskId.value == ""
    ensures r.StatusBody? ==> r.taskId == taskId.value && r.status == state.status
    ensures r.StatusBody? ==> (r.result.None? <==> !state.ready)
    ensures r.StatusBody? && state.ready && state.result.Printable? ==> r.result == Some(state.result.text)
    ensures r.StatusBody? && state.ready && state.result.Unprintable? ==>
      r.result == Some("Unserializable result: " + state.result.error)
  {
    if taskId.None? || taskId.value == "" then MissingTaskId
    else
      var safe :=
        if !state.ready then None
        else match state.result
          case Printable(t) => Some(t)
          case Unprintable(e) => Some("Unserializable result: " + e);
      StatusBody(taskId.value, state.status, safe)
  }

  function StatusCode(r: StatusResponse): int {
    if r.MissingTaskId? then 400 else 200
  }

  /** A poll with a task id always answers 200, and its answer does not depend on the result until the task is ready. */
  lemma PollNotReady(id: string, status: string, a: TaskResult, b: TaskResult)
    requires id != ""
    ensures StatusCode(TaskStatus(Some(id), TaskState(status, false, a))) == 200
    ensures TaskStatus(Some(id), TaskState(status, false, a)) == TaskStatus(Some(id), TaskState(status, false, b))
  {
  }
}
