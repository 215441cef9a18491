/**
 * The Redis-backed progress tracker `TaskProgress`, the user-agent to
 * platform mapping of the fingerprint spoofing, and the captcha decision
 * of `handle_captcha`.
 */
module AuditUtils {
  import opened Wrappers
  import opened Text

  /** A Redis string value; integers are kept apart from text. */
  datatype Cell = IntCell(n: int) | TextCell(t: string)

  /** The record `get_progress` returns. */
  datatype Progress = Progress(taskId: string, count: int, total: int, status: string, userId: Option<int>)

  /** One pub/sub message: channel and payload. */
  datatype Message = Message(channel: string, data: Progress)

  function CounterKey(id: string): string { "task_counter:" + id }
  function TotalKey(id: string): string { "task_total:" + id }
  function UserKey(id: string): string { "task_user:" + id }
  function StatusKey(id: string): string { "task_status:" + id }
  function UpdatesChannel(id: string): string { "task_updates:" + id }
  const ActiveTasks: string := "active_tasks"

  /** The four string keys a task owns. */
  function TaskKeys(id: string): set<string> {
    {CounterKey(id), TotalKey(id), UserKey(id), StatusKey(id)}
  }

  /** Keys that only ever hold integers. */
  predicate IsIntKey(k: string) {
    StartsWith(k, "task_counter:") || StartsWith(k, "task_total:") || StartsWith(k, "task_user:")
  }

  /** No integer key holds text, so `int(...)` and `incrby` never fail. */
  ghost predicate TypedStore(strings: map<string, Cell>) {
    forall k :: k in strings && IsIntKey(k) ==> strings[k].IntCell?
  }

  lemma KeyKinds(id: string)
    ensures IsIntKey(CounterKey(id)) && IsIntKey(TotalKey(id)) && IsIntKey(UserKey(id))
    ensures !IsIntKey(StatusKey(id))
  {
    assert CounterKey(id)[..13] == "task_counter:";
    assert TotalKey(id)[..11] == "task_total:";
    assert UserKey(id)[..10] == "task_user:";
    assert StatusKey(id)[5] == 's';
  }

  lemma PrefixCancel(p: string, a: string, b: string)
    requires p + a == p + b
    ensures a == b
  {
    assert a == (p + a)[|p|..];
    assert b == (p + b)[|p|..];
  }

  /** Different tasks never share a key. */
  lemma TaskKeysDisjoint(a: string, b: string)
    requires a != b
    ensures TaskKeys(a) !! TaskKeys(b)
  {
    var prefixes := ["task_counter:", "task_total:", "task_user:", "task_status:"];
    forall i, j | 0 <= i < 4 && 0 <= j < 4
      ensures prefixes[i] + a != prefixes[j] + b
    {
      if i == j {
        if prefixes[i] + a == prefixes[j] + b {
          PrefixCancel(prefixes[i], a, b);
        }
      } else {
        assert (prefixes[i] + a)[5] == prefixes[i][5];
        assert (prefixes[j] + b)[5] == prefixes[j][5];
      }
    }
    assert TaskKeys(a) == {prefixes[0] + a, prefixes[1] + a, prefixes[2] + a, prefixes[3] + a};
    assert TaskKeys(b) == {prefixes[0] + b, prefixes[1] + b, prefixes[2] + b, prefixes[3] + b};
  }

  /** `int(v) if v else 0` on a missing or integer cell. */
  function ReadInt(strings: map<string, Cell>, k: string): int {
    if k in strings && strings[k].IntCell? then strings[k].n else 0
  }

  /** `get_progress` as a function of the store. */
  function ProgressOf(strings: map<string, Cell>, id: string): (p: Progress)
    ensures p.taskId == id && p.status != ""
    ensures CounterKey(id) !in strings ==> p.count == 0
    ensures TotalKey(id) !in strings ==> p.total == 0
    ensures StatusKey(id) !in strings ==> p.status == "running"
    ensures UserKey(id) !in strings ==> p.userId == None
    ensures StatusKey(id) in strings && strings[StatusKey(id)] == TextCell("") ==> p.status == "running"
    ensures StatusKey(id) in strings && strings[StatusKey(id)].TextCell? && strings[StatusKey(id)].t != "" ==>
      p.status == strings[StatusKey(id)].t
  {
    var status :=
      if StatusKey(id) !in strings then "running"
      else match strings[StatusKey(id)]
        case TextCell(t) => if t == [] then "running" else t
        case IntCell(n) => IntToString(n);
    var user := if UserKey(id) in strings && strings[UserKey(id)].IntCell? then Some(strings[UserKey(id)].n) else None;
    Progress(id, ReadInt(strings, CounterKey(id)), ReadInt(strings, TotalKey(id)), status, user)
  }

  /** `str(n)` for the rare integer held in a status key; never empty. */
  function IntToString(n: int): (r: string)
    ensures r != []
    decreases if n < 0 then 1 - n else n
  {
    if n < 0 then "-" + NatToString(-n) else NatToString(n)
  }

  function NatToString(n: nat): (r: string)
    ensures r != []
  {
    var d := ["0", "1", "2", "3", "4", "5", "6", "7", "8", "9"][n % 10];
    if n < 10 then d else NatToString(n / 10) + d
  }

  /** Writing another task's key leaves this task's progress unchanged. */
  lemma OtherTaskWrite(strings: map<string, Cell>, a: string, b: string, k: string, c: Cell)
    requires a != b && k in TaskKeys(a)
    ensures ProgressOf(strings[k := c], b) == ProgressOf(strings, b)
  {
    TaskKeysDisjoint(a, b);
    assert k !in TaskKeys(b);
  }

  /** The part of Redis the tracker uses. */
  class Redis {
    var strings: map<string, Cell>
    var sets: map<string, set<string>>
    var published: seq<Message>

    ghost predicate Typed()
      reads this
    {
      TypedStore(strings)
    }

    constructor ()
      ensures strings == map[] && sets == map[] && published == [] && Typed()
    {
      strings := map[];
      sets := map[];
      published := [];
    }

    /** `SMEMBERS`: a missing key is the empty set. */
    function Members(key: string): (m: set<string>)
      reads this
      ensures key !in sets ==> m == {}
    {
      if key in sets then sets[key] else {}
    }

    method Set(key: string, value: Cell)
      modifies this
      ensures strings == old(strings)[key := value]
      ensures sets == old(sets) && published == old(published)
    {
      strings := strings[key := value];
    }

    /** `INCRBY`: a missing key counts as 0. */
    method IncrBy(key: string, amount: int) returns (n: int)
      requires key !in strings || strings[key].IntCell?
      modifies this
      ensures n == old(if key in strings then strings[key].n else 0) + amount
      ensures strings == old(strings)[key := IntCell(n)]
      ensures sets == old(sets) && published == old(published)
    {
      n := (if key in strings then strings[key].n else 0) + amount;
      strings := strings[key := IntCell(n)];
    }

    method SAdd(key: string, member: string)
      modifies this
      ensures sets == old(sets)[key := old(Members(key)) + {member}]
      ensures strings == old(strings) && published == old(published)
    {
      sets := sets[key := Members(key) + {member}];
    }

    /** `SREM`: removing from a missing key changes nothing. */
    method SRem(key: string, member: string)
      modifies this
      ensures Members(key) == old(Members(key)) - {member}
      ensures forall k :: k != key ==> (k in sets) == (k in old(sets)) && (k in sets ==> sets[k] == old(sets)[k])
      ensures strings == old(strings) && published == old(published)
    {
      if key in sets {
        sets := sets[key := sets[key] - {member}];
      }
    }

    method Publish(channel: string, data: Progress)
      modifies this
      ensures published == old(published) + [Message(channel, data)]
      ensures strings == old(strings) && sets == old(sets)
    {
      published := published + [Message(channel, data)];
    }
  }

  /** `TaskProgress`: the progress of one audit task, kept in Redis. */
  class TaskProgress {
    const taskId: string
    const redis: Redis

    constructor (taskId: string, redis: Redis)
      ensures this.taskId == taskId && this.redis == redis
    {
      this.taskId := taskId;
      this.redis := redis;
    }

    /**
     * `get_progress`: a missing counter or total reads 0, a missing or
     * empty status reads "running", a missing owner reads None, and the
     * stored values are read otherwise.
     */
    function GetProgress(): (p: Progress)
      reads redis
      ensures p.taskId == taskId && p.status != ""
      ensures CounterKey(taskId) !in redis.strings ==> p.count == 0
      ensures TotalKey(taskId) !in redis.strings ==> p.total == 0
      ensures CounterKey(taskId) in redis.strings && redis.strings[CounterKey(taskId)].IntCell? ==>
        p.count == redis.strings[CounterKey(taskId)].n
      ensures TotalKey(taskId) in redis.strings && redis.strings[TotalKey(taskId)].IntCell? ==>
        p.total == redis.strings[TotalKey(taskId)].n
      ensures StatusKey(taskId) !in redis.strings ==> p.status == "running"
      ensures StatusKey(taskId) in redis.strings && redis.strings[StatusKey(taskId)] == TextCell("") ==> p.status == "running"
      ensures StatusKey(taskId) in redis.strings && redis.strings[StatusKey(taskId)].TextCell? && redis.strings[StatusKey(taskId)].t != "" ==>
        p.status == redis.strings[StatusKey(taskId)].t
      ensures UserKey(taskId) !in redis.strings ==> p.userId == None
      ensures UserKey(taskId) in redis.strings && redis.strings[UserKey(taskId)].IntCell? ==>
        p.userId == Some(redis.strings[UserKey(taskId)].n)
      ensures p == ProgressOf(redis.strings, taskId)
    {
      ProgressOf(redis.strings, taskId)
    }

    /** `publish_update`: one message with the current progress. */
    method PublishUpdate()
      modifies redis
      ensures redis.published == old(redis.published) + [Message(UpdatesChannel(taskId), GetProgress())]
      ensures redis.strings == old(redis.strings) && redis.sets == old(redis.sets)
    {
      redis.Publish(UpdatesChannel(taskId), GetProgress());
    }

    /** `init_task`: count 0, the given total and user, status "running", listed as active. */
    method InitTask(total: int, userId: int)
      requires redis.Typed()
      modifies redis
      ensures redis.Typed()
      ensures GetProgress() == Progress(taskId, 0, total, "running", Some(userId))
      ensures redis.strings == old(redis.strings)[CounterKey(taskId) := IntCell(0)][TotalKey(taskId) := IntCell(total)]
        [UserKey(taskId) := IntCell(userId)][StatusKey(taskId) := TextCell("running")]
      ensures redis.sets == old(redis.sets)[ActiveTasks := old(redis.Members(ActiveTasks)) + {taskId}]
      ensures redis.Members(ActiveTasks) == old(redis.Members(ActiveTasks)) + {taskId}
      ensures redis.published == old(redis.published) + [Message(UpdatesChannel(taskId), GetProgress())]
    {
      WriteInitial(total, userId);
      redis.SAdd(ActiveTasks, taskId);
      PublishUpdate();
    }

    /** The four `set` calls of `init_task`. */
    method WriteInitial(total: int, userId: int)
      requires redis.Typed()
      modifies redis
      ensures redis.Typed()
      ensures GetProgress() == Progress(taskId, 0, total, "running", Some(userId))
      ensures redis.strings == old(redis.strings)[CounterKey(taskId) := IntCell(0)][TotalKey(taskId) := IntCell(total)]
        [UserKey(taskId) := IntCell(userId)][StatusKey(taskId) := TextCell("running")]
      ensures redis.sets == old(redis.sets) && redis.published == old(redis.published)
    {
      KeyKinds(taskId);
      redis.Set(CounterKey(taskId), IntCell(0));
      redis.Set(TotalKey(taskId), IntCell(total));
      redis.Set(UserKey(taskId), IntCell(userId));
      redis.Set(StatusKey(taskId), TextCell("running"));
    }

    /** `increment`: the count grows by exactly `amount`; nothing else in the record changes. */
    method Increment(amount: int)
      requires redis.Typed()
      modifies redis
      ensures redis.Typed()
      ensures GetProgress() == old(GetProgress()).(count := old(GetProgress()).count + amount)
      ensures redis.strings == old(redis.strings)[CounterKey(taskId) := IntCell(old(GetProgress()).count + amount)]
      ensures redis.sets == old(redis.sets)
      ensures redis.published == old(redis.published) + [Message(UpdatesChannel(taskId), GetProgress())]
    {
      KeyKinds(taskId);
      var _ := redis.IncrBy(CounterKey(taskId), amount);
      PublishUpdate();
    }

    /** `set_status`: a finished or failed task leaves the active set; other statuses keep it. */
    method SetStatus(status: string)
      requires redis.Typed()
      modifies redis
      ensures redis.Typed()
      ensures GetProgress() == old(GetProgress()).(status := if status == "" then "running" else status)
      ensures redis.strings == old(redis.strings)[StatusKey(taskId) := TextCell(status)]
      ensures redis.Members(ActiveTasks) ==
        if status == "done" || status == "failed" then old(redis.Members(ActiveTasks)) - {taskId}
        else old(redis.Members(ActiveTasks))
      ensures forall k :: k != ActiveTasks ==>
        (k in redis.sets) == (k in old(redis.sets)) && (k in redis.sets ==> redis.sets[k] == old(redis.sets)[k])
      ensures redis.published == old(redis.published) + [Message(UpdatesChannel(taskId), GetProgress())]
    {
      KeyKinds(taskId);
      redis.Set(StatusKey(taskId), TextCell(status));
      if status == "done" || status == "failed" {
        redis.SRem(ActiveTasks, taskId);
      }
      PublishUpdate();
    }
  }

  function TaskIds(tasks: seq<Progress>): set<string> {
    set p | p in tasks :: p.taskId
  }

  ghost predicate Current(tasks: seq<Progress>, strings: map<string, Cell>) {
    forall i :: 0 <= i < |tasks| ==> tasks[i] == ProgressOf(strings, tasks[i].taskId)
  }

  ghost predicate DistinctIds(tasks: seq<Progress>) {
    forall i, j :: 0 <= i < j < |tasks| ==> tasks[i].taskId != tasks[j].taskId
  }

  /** `tasks` holds exactly one current progress record per id in `done`. */
  ghost predicate Collected(tasks: seq<Progress>, strings: map<string, Cell>, done: set<string>) {
    |tasks| == |done| && TaskIds(tasks) == done && Current(tasks, strings) && DistinctIds(tasks)
  }

  lemma TaskIdsSnoc(tasks: seq<Progress>, p: Progress)
    ensures TaskIds(tasks + [p]) == TaskIds(tasks) + {p.taskId}
  {
    assert forall q :: q in tasks + [p] <==> q in tasks || q == p;
  }

  lemma CurrentSnoc(tasks: seq<Progress>, strings: map<string, Cell>, p: Progress)
    requires Current(tasks, strings) && p == ProgressOf(strings, p.taskId)
    ensures Current(tasks + [p], strings)
  {
    assert forall i :: 0 <= i < |tasks| ==> (tasks + [p])[i] == tasks[i];
  }

  lemma DistinctIdsSnoc(tasks: seq<Progress>, p: Progress)
    requires DistinctIds(tasks) && p.taskId !in TaskIds(tasks)
    ensures DistinctIds(tasks + [p])
  {
    assert forall i :: 0 <= i < |tasks| ==> (tasks + [p])[i] == tasks[i] && tasks[i] in tasks;
  }

  lemma CollectedSnoc(tasks: seq<Progress>, strings: map<string, Cell>, done: set<string>, p: Progress)
    requires Collected(tasks, strings, done)
    requires p.taskId !in done && p == ProgressOf(strings, p.taskId)
    ensures Collected(tasks + [p], strings, done + {p.taskId})
  {
    TaskIdsSnoc(tasks, p);
    CurrentSnoc(tasks, strings, p);
    DistinctIdsSnoc(tasks, p);
  }

  /** Collecting the record of one more remaining id. */
  lemma CollectStep(tasks: seq<Progress>, strings: map<string, Cell>, ids: set<string>, remaining: set<string>, p: Progress)
    requires Collected(tasks, strings, ids - remaining) && remaining <= ids
    requires p.taskId in remaining && p == ProgressOf(strings, p.taskId)
    ensures Collected(tasks + [p], strings, ids - (remaining - {p.taskId}))
  {
    CollectedSnoc(tasks, strings, ids - remaining, p);
    assert ids - (remaining - {p.taskId}) == (ids - remaining) + {p.taskId};
  }

  /** `TaskProgress(id).get_progress()` for a task found in the active set. */
  method ReadProgress(redis: Redis, id: string) returns (p: Progress)
    ensures p == ProgressOf(redis.strings, id)
  {
    var task := new TaskProgress(id, redis);
    p := task.GetProgress();
  }

  /** `get_all_tasks`: one progress record per active task id. */
  method GetAllTasks(redis: Redis) returns (tasks: seq<Progress>)
    ensures |tasks| == |redis.Members(ActiveTasks)|
    ensures TaskIds(tasks) == redis.Members(ActiveTasks)
    ensures forall i :: 0 <= i < |tasks| ==> tasks[i] == ProgressOf(redis.strings, tasks[i].taskId)
    ensures forall i, j :: 0 <= i < j < |tasks| ==> tasks[i].taskId != tasks[j].taskId
  {
    var ids := redis.Members(ActiveTasks);
    var strings := redis.strings;
    var remaining := ids;
    tasks := [];
    while remaining != {}
      invariant remaining <= ids && redis.strings == strings
      invariant Collected(tasks, strings, ids - remaining)
      decreases |remaining|
    {
      var id :| id in remaining;
      var p := ReadProgress(redis, id);
      CollectStep(tasks, strings, ids, remaining, p);
      tasks := tasks + [p];
      remaining := remaining - {id};
    }
    assert ids - remaining == ids;
  }

  /**
   * The user agents `create_spoofed_context` chooses from, each written as
   * the concatenation of short pieces (the operating-system token one of
   * them) so that the proofs about `Platform` stay small.
   */
  const WindowsAgent: string :=
    "Mozilla/5.0 (" + "Windows" + " NT 10.0; Win64; x64) " + "AppleWebKit/537.36 " + "(KHTML, like Gecko) " + "Chrome/124.0.0.0 " + "Safari/537.36"
  const MacAgent: string :=
    "Mozilla/5.0 (" + "Macintosh" + "; Intel Mac OS X 12_3) " + "AppleWebKit/605.1.15 " + "(KHTML, like Gecko) " + "Version/15.1 Safari/605.1.15"
  const LinuxAgent: string :=
    "Mozilla/5.0 (" + "X11; Linux x86_64) " + "AppleWebKit/537.36 " + "(KHTML, like Gecko) " + "Chrome/123.0.0.0 " + "Safari/537.36"
  const UserAgents: seq<string> := [WindowsAgent, MacAgent, LinuxAgent]

  const Viewports: seq<(int, int)> := [(1366, 768), (1920, 1080), (1440, 900)]
  const Timezones: seq<string> := ["America/New_York", "Europe/London", "Asia/Kolkata", "Australia/Sydney"]
  const Locales: seq<string> := ["en-US", "en-GB", "fr-FR", "de-DE"]
  /** The four geolocations are float pairs; a setting names one by its position. */
  const GeolocationCount: nat := 4

  /** The settings a spoofed browser context is created with. */
  datatype ContextSettings = ContextSettings(
    userAgent: string, viewport: (int, int), timezone: string, locale: string, geolocation: nat)

  /** The outcome of the five `random.choice` calls, as positions in the lists. */
  datatype Picks = Picks(userAgent: nat, viewport: nat, timezone: nat, locale: nat, geolocation: nat)

  predicate ValidPicks(p: Picks) {
    p.userAgent < |UserAgents| && p.viewport < |Viewports| && p.timezone < |Timezones|
    && p.locale < |Locales| && p.geolocation < GeolocationCount
  }

  /** The settings `create_spoofed_context` returns: every value comes from its fixed list. */
  function SpoofedSettings(p: Picks): (s: ContextSettings)
    requires ValidPicks(p)
    ensures s.userAgent in UserAgents && s.viewport in Viewports && s.timezone in Timezones
    ensures s.locale in Locales && s.geolocation < GeolocationCount
  {
    ContextSettings(UserAgents[p.userAgent], Viewports[p.viewport], Timezones[p.timezone], Locales[p.locale], p.geolocation)
  }

  /** The `navigator.platform` that `spoof_browser_fingerprint` derives from a user agent. */
  function Platform(ua: string): (p: string)
    ensures p in {"Win32", "MacIntel", "Linux x86_64"}
    ensures p == "Win32" <==> Contains(ua, "Windows")
    ensures p == "MacIntel" <==> !Contains(ua, "Windows") && Contains(ua, "Macintosh")
  {
    if Contains(ua, "Windows") then "Win32"
    else if Contains(ua, "Macintosh") then "MacIntel"
    else "Linux x86_64"
  }

  /** Each fixed user agent gets the platform of its own operating system. */
  lemma PlatformOfWindowsAgent()
    ensures Platform(WindowsAgent) == "Win32"
  {
    var head := "Mozilla/5.0 (" + "Windows";
    assert WindowsAgent[..20] == head;
    assert head[13..20] == "Windows";
    ContainsAt(WindowsAgent, "Windows", 13);
  }

  lemma PlatformOfMacAgent()
    ensures Platform(MacAgent) == "MacIntel"
  {
    var head := "Mozilla/5.0 (" + "Macintosh";
    assert MacAgent[..22] == head;
    assert head[13..22] == "Macintosh";
    ContainsAt(MacAgent, "Macintosh", 13);
    MacAgentNotWindows();
  }

  lemma MacAgentNotWindows()
    ensures !Contains(MacAgent, "Windows")
  {
    assert "Windows"[3] == 'd';
    NotContainsMissingChar(MacAgent, "Windows", 3);
  }

  lemma PlatformOfLinuxAgent()
    ensures Platform(LinuxAgent) == "Linux x86_64"
  {
    LinuxAgentNotWindows();
    LinuxAgentNotMacintosh();
  }

  lemma LinuxAgentNotWindows()
    ensures !Contains(LinuxAgent, "Windows")
  {
    assert "Windows"[3] == 'd';
    NotContainsMissingChar(LinuxAgent, "Windows", 3);
  }

  lemma LinuxAgentNotMacintosh()
    ensures !Contains(LinuxAgent, "Macintosh")
  {
    assert "Macintosh"[7] == 's';
    NotContainsMissingChar(LinuxAgent, "Macintosh", 7);
  }

  /** Whatever the random picks, the spoofed platform matches the chosen agent's operating system. */
  lemma SpoofedPlatform(p: Picks)
    requires ValidPicks(p)
    ensures Platform(SpoofedSettings(p).userAgent) ==
      ["Win32", "MacIntel", "Linux x86_64"][p.userAgent]
  {
    if p.userAgent == 0 {
      PlatformOfWindowsAgent();
    } else if p.userAgent == 1 {
      PlatformOfMacAgent();
    } else {
      PlatformOfLinuxAgent();
    }
  }

  /** A call that returns a value or raises. */
  datatype Attempt<T> = Returns(value: T) | Raises

  /** What the captcha steps observe on a page. */
  datatype CaptchaPage = CaptchaPage(
    query: Attempt<bool>,     // `query_selector("input#captchacharacters")`: element found, or raised
    solved: bool,             // the solver's verdict
    reload: Attempt<bool>)    // `page.reload()`

  /** `is_captcha_present`: its own errors count as "no captcha". */
  function IsCaptchaPresent(query: Attempt<bool>): (present: bool)
    ensures present <==> query == Returns(true)
  {
    match query
    case Returns(found) => found
    case Raises => false
  }

  /** What `handle_captcha` did and returned. */
  datatype CaptchaOutcome = CaptchaOutcome(ok: bool, solverCalled: bool, reloaded: bool)

  /** `handle_captcha`. */
  function HandleCaptcha(page: CaptchaPage): (r: CaptchaOutcome)
    ensures r.solverCalled <==> IsCaptchaPresent(page.query)
    ensures !IsCaptchaPresent(page.query) ==> r.ok && !r.reloaded
    ensures IsCaptchaPresent(page.query) ==> (r.reloaded <==> page.solved)
    ensures IsCaptchaPresent(page.query) && page.solved ==> (r.ok <==> page.reload.Returns?)
    ensures IsCaptchaPresent(page.query) && !page.solved ==> !r.ok
  {
    if !IsCaptchaPresent(page.query) then CaptchaOutcome(true, false, false)
    else if !page.solved then CaptchaOutcome(false, true, false)
    else match page.reload
      case Returns(_) => CaptchaOutcome(true, true, true)
      case Raises => CaptchaOutcome(false, true, true)
  }
}
