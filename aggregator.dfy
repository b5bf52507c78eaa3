/** The notification aggregator (src/aggregator.rs): a single durable batch of
    task-completion events kept in one state file across short-lived process
    invocations.

    The state file is modelled as a `Store` value: `Absent` (no file), `Valid`
    (a file that parses as an `AggregationState`) or `Corrupt` (a file that
    cannot be read or parsed). The wall clock, in Unix seconds, is the `now`
    parameter; whether the file system accepts a write or a removal is a
    boolean parameter of the operation that writes or removes. */
module Aggregator {
  import opened Wrappers
  import opened Text

  /** One buffered event (`AggregatedNotification`). */
  datatype Notification = Notification(status: string, duration: nat, cmd: string, timestamp: nat)

  /** The persisted batch: buffered events in arrival order and the second the
      batch window opened. */
  datatype AggregationState = AggregationState(notifications: seq<Notification>, windowStart: nat)

  /** Contents of the state file. */
  datatype Store = Absent | Valid(state: AggregationState) | Corrupt

  datatype AggError =
    | Unreadable    // the file exists but does not read or parse
    | WriteFailed   // `fs::write` failed
    | RemoveFailed  // `fs::remove_file` failed

  /** The summary of a batch handed to the notifier. */
  datatype AggregatedResult = AggregatedResult(total: nat, success: nat, error: nat, notifications: seq<Notification>)

  // ---------------------------------------------------------------------------
  // AggregationState
  // ---------------------------------------------------------------------------

  /** `AggregationState::new`: an empty batch opened at `now`. */
  function NewState(now: nat): (s: AggregationState)
    ensures s.notifications == [] && s.windowStart == now
    ensures forall windowMs: nat :: !IsExpired(s, windowMs, now)
  {
    AggregationState([], now)
  }

  /** `u64::saturating_sub`. */
  function SaturatingSub(a: nat, b: nat): nat {
    if a >= b then a - b else 0
  }

  /** `is_expired`: the seconds elapsed since the window opened (saturating at
      zero) exceed the window length in whole seconds. */
  function IsExpired(s: AggregationState, windowMs: nat, now: nat): (expired: bool)
    ensures expired <==> now > s.windowStart + windowMs / 1000
  {
    SaturatingSub(now, s.windowStart) > windowMs / 1000
  }

  /** A clock that reads before the window start never expires the batch. */
  lemma ClockBehindNeverExpires(s: AggregationState, windowMs: nat, now: nat)
    requires now <= s.windowStart
    ensures !IsExpired(s, windowMs, now)
  {
  }

  /** Once expired, a batch stays expired as the clock advances. */
  lemma ExpiryIsMonotone(s: AggregationState, windowMs: nat, now: nat, later: nat)
    requires now <= later && IsExpired(s, windowMs, now)
    ensures IsExpired(s, windowMs, later)
  {
  }

  /** `AggregationState::add`: append one event stamped `now`; earlier events and
      the window start are untouched. */
  function Add(s: AggregationState, status: string, duration: nat, cmd: string, now: nat): (s': AggregationState)
    ensures s'.windowStart == s.windowStart
    ensures |s'.notifications| == |s.notifications| + 1
    ensures s'.notifications[..|s.notifications|] == s.notifications
    ensures s'.notifications[|s.notifications|] == Notification(status, duration, cmd, now)
  {
    s.(notifications := s.notifications + [Notification(status, duration, cmd, now)])
  }

  /** Number of events whose status string equals `status`. */
  function CountStatus(ns: seq<Notification>, status: string): (n: nat)
    ensures n <= |ns|
  {
    if ns == [] then 0
    else CountStatus(ns[..|ns| - 1], status) + (if ns[|ns| - 1].status == status then 1 else 0)
  }

  /** Appending one event raises exactly the count of its own status. */
  lemma CountStatusAppend(ns: seq<Notification>, n: Notification, status: string)
    ensures CountStatus(ns + [n], status) == CountStatus(ns, status) + (if n.status == status then 1 else 0)
  {
    assert (ns + [n])[..|ns|] == ns;
  }

  /** The positions of the events whose status equals `status`. */
  ghost function MatchingPositions(ns: seq<Notification>, status: string): set<nat> {
    set i: nat | i < |ns| && ns[i].status == status
  }

  /** The count is the number of events with that status, as
      `filter(..).count()` computes it. */
  lemma {:induction false} CountStatusCountsMatches(ns: seq<Notification>, status: string)
    ensures CountStatus(ns, status) == |MatchingPositions(ns, status)|
  {
    if ns == [] {
      assert MatchingPositions(ns, status) == {};
    } else {
      var last := |ns| - 1;
      var before := ns[..last];
      CountStatusCountsMatches(before, status);
      assert forall i: nat :: i < last ==> ns[i] == before[i];
      if ns[last].status == status {
        assert MatchingPositions(ns, status) == MatchingPositions(before, status) + {last};
      } else {
        assert MatchingPositions(ns, status) == MatchingPositions(before, status);
      }
    }
  }

  /** In a batch where every event has one status, that status counts every
      event and any other status counts none. */
  lemma {:induction false} UniformBatchCounts(ns: seq<Notification>, status: string, other: string)
    requires forall i :: 0 <= i < |ns| ==> ns[i].status == status
    requires other != status
    ensures CountStatus(ns, status) == |ns| && CountStatus(ns, other) == 0
    decreases |ns|
  {
    if ns != [] {
      UniformBatchCounts(ns[..|ns| - 1], status, other);
    }
  }

  /** No event is counted both as a success and as an error. */
  lemma {:induction false} SuccessErrorBound(ns: seq<Notification>)
    ensures CountStatus(ns, "success") + CountStatus(ns, "error") <= |ns|
  {
    if ns != [] {
      SuccessErrorBound(ns[..|ns| - 1]);
    }
  }

  /** `get_stats`: (total, successes, errors). */
  function GetStats(s: AggregationState): (stats: (nat, nat, nat))
    ensures stats.0 == |s.notifications|
    ensures stats.1 == CountStatus(s.notifications, "success")
    ensures stats.2 == CountStatus(s.notifications, "error")
    ensures stats.1 + stats.2 <= stats.0
  {
    SuccessErrorBound(s.notifications);
    (|s.notifications|, CountStatus(s.notifications, "success"), CountStatus(s.notifications, "error"))
  }

  /** The unit test of src/aggregator.rs: success, error, success gives (3, 2, 1). */
  lemma GetStatsExample(now: nat)
    ensures var s := Add(Add(Add(NewState(now), "success", 10, "npm test", now),
                                 "error", 5, "cargo build", now),
                             "success", 20, "make deploy", now);
            GetStats(s) == (3, 2, 1)
  {
    var s1 := Add(NewState(now), "success", 10, "npm test", now);
    var s2 := Add(s1, "error", 5, "cargo build", now);
    var s3 := Add(s2, "success", 20, "make deploy", now);
    CountStatusAppend(s2.notifications, s3.notifications[2], "success");
    CountStatusAppend(s2.notifications, s3.notifications[2], "error");
    CountStatusAppend(s1.notifications, s2.notifications[1], "success");
    CountStatusAppend(s1.notifications, s2.notifications[1], "error");
  }

  // ---------------------------------------------------------------------------
  // build_result and the rendering of an AggregatedResult
  // ---------------------------------------------------------------------------

  /** `build_result`: the statistics of the batch together with all its events. */
  function BuildResult(s: AggregationState): (r: AggregatedResult)
    ensures r.notifications == s.notifications && r.total == |r.notifications|
    ensures r.success + r.error <= r.total
    ensures r.success == CountStatus(s.notifications, "success")
    ensures r.error == CountStatus(s.notifications, "error")
  {
    var (total, success, error) := GetStats(s);
    AggregatedResult(total, success, error, s.notifications)
  }

  /** The title of a batch with failures starts with the total and names both
      counts. */
  lemma FailureTitleParts(total: string, success: string, failed: string)
    ensures var title := total + " 个任务完成 (" + success + ", " + failed + ")";
            IsPrefix(total, title) && Contains(title, success) && Contains(title, failed)
  {
    var title := total + " 个任务完成 (" + success + ", " + failed + ")";
    assert title[..|total|] == total;
    assert title == (total + " 个任务完成 (") + success + (", " + failed + ")");
    ContainsInfix(total + " 个任务完成 (", success, ", " + failed + ")");
    assert title == (total + " 个任务完成 (" + success + ", ") + failed + ")";
    ContainsInfix(total + " 个任务完成 (" + success + ", ", failed, ")");
  }

  /** The title of a failure-free batch starts with the total and, the total
      being digits, holds no '失'. */
  lemma SuccessTitleParts(total: string)
    requires forall k :: 0 <= k < |total| ==> '0' <= total[k] <= '9'
    ensures var title := total + " 个任务已完成";
            IsPrefix(total, title) && '失' !in title
  {
    var title := total + " 个任务已完成";
    assert title[..|total|] == total;
    assert forall k :: 0 <= k < |title| ==> title[k] != '失';
  }

  /** `AggregatedResult::title`. */
  function Title(r: AggregatedResult): (title: string)
    ensures IsPrefix(NatToString(r.total), title)
    ensures r.error > 0 ==> Contains(title, NatToString(r.success) + " 成功")
                            && Contains(title, NatToString(r.error) + " 失败")
    ensures '失' in title <==> r.error > 0
  {
    var total := NatToString(r.total);
    if r.error > 0 then
      var failed := NatToString(r.error) + " 失败";
      var title := total + " 个任务完成 (" + (NatToString(r.success) + " 成功") + ", " + failed + ")";
      FailureTitleParts(total, NatToString(r.success) + " 成功", failed);
      assert title[|title| - 3] == '失';
      title
    else
      SuccessTitleParts(total);
      total + " 个任务已完成"
  }

  /** `AggregatedResult::status`: the status used for the outgoing notification. */
  function Status(r: AggregatedResult): (status: string)
    ensures status == "error" || status == "success"
    ensures status == "error" <==> r.error > 0
  {
    if r.error > 0 then "error" else "success"
  }

  /** The title reports failures exactly when the status is "error". */
  lemma TitleAgreesWithStatus(r: AggregatedResult)
    ensures '失' in Title(r) <==> Status(r) == "error"
  {
  }

  /** The test of `title` in src/aggregator.rs: 5 tasks, 3 succeeded, 2 failed. */
  lemma TitleExample(r: AggregatedResult)
    requires r.total == 5 && r.success == 3 && r.error == 2
    ensures Contains(Title(r), "5") && Contains(Title(r), "3 成功") && Contains(Title(r), "2 失败")
  {
    assert NatToString(5) == "5";
    assert NatToString(3) + " 成功" == "3 成功";
    assert NatToString(2) + " 失败" == "2 失败";
    OccursAtContains(Title(r), "5", 0);
  }

  /** One line of the message, kept as the value it is formatted from until the
      lines are joined. */
  datatype MessageLine =
    | SucceededCount(n: nat)          // "✅ 成功: {n} 个"
    | FailedCount(n: nat)             // "❌ 失败: {n} 个"
    | RecentHeading                   // "\n最近的任务:"
    | RecentTask(task: Notification)  // "  {icon} {cmd} ({duration}秒)"

  /** "✅" for status "success", "❌" for every other status. */
  function Icon(status: string): (icon: string)
    ensures icon == "✅" || icon == "❌"
    ensures icon == "✅" <==> status == "success"
  {
    if status == "success" then "✅" else "❌"
  }

  /** The text of one line, as `format!` produces it. */
  function Render(line: MessageLine): (text: string)
    ensures (line.SucceededCount? || line.FailedCount?) ==> Contains(text, NatToString(line.n))
    ensures line.RecentTask? ==> Contains(text, line.task.cmd) && Contains(text, NatToString(line.task.duration))
  {
    match line
    case SucceededCount(n) =>
      ContainsInfix("✅ 成功: ", NatToString(n), " 个");
      "✅ 成功: " + NatToString(n) + " 个"
    case FailedCount(n) =>
      ContainsInfix("❌ 失败: ", NatToString(n), " 个");
      "❌ 失败: " + NatToString(n) + " 个"
    case RecentHeading => "\n最近的任务:"
    case RecentTask(t) =>
      var head := "  " + Icon(t.status) + " ";
      var text := head + t.cmd + " (" + NatToString(t.duration) + "秒)";
      assert text == head + t.cmd + (" (" + NatToString(t.duration) + "秒)");
      ContainsInfix(head, t.cmd, " (" + NatToString(t.duration) + "秒)");
      assert text == (head + t.cmd + " (") + NatToString(t.duration) + "秒)";
      ContainsInfix(head + t.cmd + " (", NatToString(t.duration), "秒)");
      text
  }

  function RenderAll(lines: seq<MessageLine>): (texts: seq<string>)
    ensures |texts| == |lines|
  {
    if lines == [] then [] else [Render(lines[0])] + RenderAll(lines[1..])
  }

  /** Each kind of line is told apart by its first character, and a task line
      shows "✅" exactly for status "success". */
  lemma RenderedLinesAreDistinct(line: MessageLine)
    ensures |Render(line)| > 2
    ensures Render(line)[0] == '✅' <==> line.SucceededCount?
    ensures Render(line)[0] == '❌' <==> line.FailedCount?
    ensures Render(line)[0] == '\n' <==> line.RecentHeading?
    ensures Render(line)[0] == ' ' <==> line.RecentTask?
    ensures line.RecentTask? ==> (Render(line)[2] == '✅' <==> line.task.status == "success")
  {
  }

  /** One task line per event, in order. */
  function TaskLines(ns: seq<Notification>): (lines: seq<MessageLine>)
    ensures |lines| == |ns|
    ensures forall i :: 0 <= i < |ns| ==> lines[i] == RecentTask(ns[i])
  {
    if ns == [] then [] else TaskLines(ns[..|ns| - 1]) + [RecentTask(ns[|ns| - 1])]
  }

  /** The summary lines: one for the successes, one for the failures, each
      only when its count is non-zero. */
  function SummaryLines(r: AggregatedResult): seq<MessageLine> {
    (if r.success > 0 then [SucceededCount(r.success)] else [])
    + (if r.error > 0 then [FailedCount(r.error)] else [])
  }

  /** The lines `message` joins: the summary lines, then, for a batch of one
      to five events, a heading and one line per event. (Taking the first
      five of at most five events takes them all.) */
  function MessageLines(r: AggregatedResult): seq<MessageLine> {
    if 0 < |r.notifications| <= 5 then SummaryLines(r) + [RecentHeading] + TaskLines(r.notifications)
    else SummaryLines(r)
  }

  /** The text of the notification body. */
  function MessageText(r: AggregatedResult): string {
    Join(RenderAll(MessageLines(r)), "\n")
  }

  /** `AggregatedResult::message`: pushes the lines one by one, then joins them
      with newlines. */
  method Message(r: AggregatedResult) returns (message: string)
    ensures message == MessageText(r)
  {
    var lines: seq<MessageLine> := [];
    if r.success > 0 {
      lines := lines + [SucceededCount(r.success)];
    }
    if r.error > 0 {
      lines := lines + [FailedCount(r.error)];
    }
    assert lines == SummaryLines(r);
    if |r.notifications| > 0 && |r.notifications| <= 5 {
      lines := lines + [RecentHeading];
      var shown := r.notifications[..if |r.notifications| < 5 then |r.notifications| else 5];
      assert shown == r.notifications;
      for i := 0 to |shown|
        invariant lines == SummaryLines(r) + [RecentHeading] + TaskLines(shown[..i])
      {
        assert shown[..i + 1][..i] == shown[..i];
        lines := lines + [RecentTask(shown[i])];
      }
      assert shown[..|shown|] == shown;
    }
    assert lines == MessageLines(r);
    message := Join(RenderAll(lines), "\n");
  }

  /** The success line is present exactly when some event succeeded, and then
      it carries the success count. */
  lemma MessageSuccessLine(r: AggregatedResult)
    ensures r.success > 0 ==> SucceededCount(r.success) in MessageLines(r)
    ensures forall l :: l in MessageLines(r) && l.SucceededCount? ==> r.success > 0 && l.n == r.success
  {
  }

  /** The failure line is present exactly when some event failed, and then it
      carries the failure count. */
  lemma MessageFailureLine(r: AggregatedResult)
    ensures r.error > 0 ==> FailedCount(r.error) in MessageLines(r)
    ensures forall l :: l in MessageLines(r) && l.FailedCount? ==> r.error > 0 && l.n == r.error
  {
  }

  /** The recent-task list is present exactly when there are one to five events;
      it then ends the message and lists every event in order. With no list,
      no task line appears at all. */
  lemma MessageRecentTasks(r: AggregatedResult)
    ensures RecentHeading in MessageLines(r) <==> 0 < |r.notifications| <= 5
    ensures 0 < |r.notifications| <= 5 ==>
              var lines := MessageLines(r);
              |lines| > |r.notifications|
              && lines[|lines| - |r.notifications| - 1] == RecentHeading
              && forall i :: 0 <= i < |r.notifications| ==> lines[|lines| - |r.notifications| + i] == RecentTask(r.notifications[i])
    ensures !(0 < |r.notifications| <= 5) ==> forall l :: l in MessageLines(r) ==> !l.RecentTask?
  {
  }

  // ---------------------------------------------------------------------------
  // Loading, adding, pending
  // ---------------------------------------------------------------------------

  /** `load_state`: a missing file yields an empty batch opened now; a file that
      does not read or parse is an error. */
  function Load(store: Store, now: nat): (loaded: Result<AggregationState, AggError>)
    ensures loaded.Err? <==> store.Corrupt?
    ensures store.Valid? ==> loaded == Ok(store.state)
    ensures store.Absent? ==> loaded == Ok(NewState(now))
  {
    match store
    case Absent => Ok(NewState(now))
    case Valid(s) => Ok(s)
    case Corrupt => Err(Unreadable)
  }

  /** The batch `add_notification` appends to: the loaded state, or a fresh one
      when loading fails, and a fresh one in place of an expired state. It is
      never expired at `now`, and it is either empty or the stored state. */
  function StartState(store: Store, windowMs: nat, now: nat): (start: AggregationState)
    ensures !IsExpired(start, windowMs, now)
    ensures start.notifications == [] || (store.Valid? && start == store.state)
    ensures store.Valid? && !IsExpired(store.state, windowMs, now) ==> start == store.state
    ensures !(store.Valid? && !IsExpired(store.state, windowMs, now)) ==> start == NewState(now)
  {
    var loaded := match Load(store, now) case Ok(s) => s case Err(_) => NewState(now);
    if IsExpired(loaded, windowMs, now) then NewState(now) else loaded
  }

  /** The batch a successful `add_notification` saves: the start batch with
      the new event appended. It is live at `now` and ends with the new event. */
  function AddSaved(store: Store, windowMs: nat, status: string, duration: nat, cmd: string, now: nat): (saved: AggregationState)
    ensures !IsExpired(saved, windowMs, now)
    ensures |saved.notifications| >= 1
    ensures saved.notifications[|saved.notifications| - 1] == Notification(status, duration, cmd, now)
  {
    Add(StartState(store, windowMs, now), status, duration, cmd, now)
  }

  /** What a successful `add_notification` returns for the saved batch: a
      report exactly when it holds at least `maxToasts` events, covering every
      event of the batch and counting its successes and failures. */
  function ReadyReport(saved: AggregationState, maxToasts: nat): (ready: Option<AggregatedResult>)
    ensures ready.Some? <==> |saved.notifications| >= maxToasts
    ensures ready.Some? ==>
              ready.value.total == |saved.notifications| && ready.value.notifications == saved.notifications
              && ready.value.success == CountStatus(saved.notifications, "success")
              && ready.value.error == CountStatus(saved.notifications, "error")
  {
    if |saved.notifications| >= maxToasts then Some(BuildResult(saved)) else None
  }

  /** The previous batch is kept exactly when the file holds a state that has not
      expired; in every other case (no file, an unreadable file, an expired
      batch) its events are dropped and a batch opened `now` holds only the new
      event. Either way the new event is last and stamped `now`. */
  lemma AddKeepsOrDrops(store: Store, windowMs: nat, status: string, duration: nat, cmd: string, now: nat)
    ensures var saved := AddSaved(store, windowMs, status, duration, cmd, now);
            var event := Notification(status, duration, cmd, now);
            if store.Valid? && !IsExpired(store.state, windowMs, now) then
              saved == AggregationState(store.state.notifications + [event], store.state.windowStart)
            else
              saved == AggregationState([event], now)
  {
  }

  /** The ready batch is not cleared: the next add within the same window reports
      again, with one more event and the earlier ones unchanged in front. */
  lemma AddRefiresUntilFlushed(saved: AggregationState, windowMs: nat, maxToasts: nat,
                               status: string, duration: nat, cmd: string, now: nat)
    requires ReadyReport(saved, maxToasts).Some?
    requires !IsExpired(saved, windowMs, now)
    ensures var saved' := AddSaved(Valid(saved), windowMs, status, duration, cmd, now);
            ReadyReport(saved', maxToasts).Some?
            && ReadyReport(saved', maxToasts).value.total == ReadyReport(saved, maxToasts).value.total + 1
            && ReadyReport(saved', maxToasts).value.notifications[..|saved.notifications|] == saved.notifications
  {
    AddKeepsOrDrops(Valid(saved), windowMs, status, duration, cmd, now);
  }

  /** `has_pending`: a live batch with at least one event. An absent or
      unreadable file has nothing pending. */
  function HasPending(store: Store, windowMs: nat, now: nat): (pending: bool)
    ensures pending <==> store.Valid? && |store.state.notifications| > 0 && !IsExpired(store.state, windowMs, now)
  {
    match Load(store, now)
    case Ok(s) => |s.notifications| > 0 && !IsExpired(s, windowMs, now)
    case Err(_) => false
  }

  /** Right after an add, the saved batch is pending at the same instant. */
  lemma AddLeavesPending(store: Store, windowMs: nat, status: string, duration: nat, cmd: string, now: nat)
    ensures HasPending(Valid(AddSaved(store, windowMs, status, duration, cmd, now)), windowMs, now)
  {
  }

  /** Every event is stamped no earlier than the window start, and events are
      in timestamp order. */
  ghost predicate WellFormed(s: AggregationState) {
    && (forall i :: 0 <= i < |s.notifications| ==> s.windowStart <= s.notifications[i].timestamp)
    && (forall i, j :: 0 <= i < j < |s.notifications| ==> s.notifications[i].timestamp <= s.notifications[j].timestamp)
  }

  /** With a clock that does not run backwards past the stored events, an add
      keeps the saved batch well formed. */
  lemma AddKeepsWellFormed(store: Store, windowMs: nat, status: string, duration: nat, cmd: string, now: nat)
    requires store.Valid? ==> WellFormed(store.state)
    requires store.Valid? ==> now >= store.state.windowStart
    requires store.Valid? ==> forall i :: 0 <= i < |store.state.notifications| ==> store.state.notifications[i].timestamp <= now
    ensures WellFormed(AddSaved(store, windowMs, status, duration, cmd, now))
  {
    AddKeepsOrDrops(store, windowMs, status, duration, cmd, now);
  }

  /** A clock that reads before the window start does not expire the batch, so
      the new event is kept with a timestamp earlier than the window start. */
  lemma ClockBehindBreaksWindowOrder(windowMs: nat, now: nat, start: nat)
    requires now < start
    ensures var saved := AddSaved(Valid(AggregationState([], start)), windowMs, "success", 1, "ls", now);
            saved.windowStart == start && saved.notifications[0].timestamp == now
            && !WellFormed(saved)
  {
  }

  /** The batches three successful "npm test" adds within one 5-second window
      save, starting from no file: one event, then two, then three, all under
      the first add's window start. */
  lemma ThreeSuccessBatches(t: nat)
    ensures var s1 := AddSaved(Absent, 5000, "success", 10, "npm test", t);
            var s2 := AddSaved(Valid(s1), 5000, "success", 10, "npm test", t + 1);
            var s3 := AddSaved(Valid(s2), 5000, "success", 10, "npm test", t + 2);
            s1.notifications == [Notification("success", 10, "npm test", t)]
            && s2.notifications == s1.notifications + [Notification("success", 10, "npm test", t + 1)]
            && s3.notifications == s2.notifications + [Notification("success", 10, "npm test", t + 2)]
            && s3.windowStart == t
  {
    var s1 := AddSaved(Absent, 5000, "success", 10, "npm test", t);
    AddKeepsOrDrops(Absent, 5000, "success", 10, "npm test", t);
    assert s1.windowStart == t;
    assert !IsExpired(s1, 5000, t + 1);
    var s2 := AddSaved(Valid(s1), 5000, "success", 10, "npm test", t + 1);
    AddKeepsOrDrops(Valid(s1), 5000, "success", 10, "npm test", t + 1);
    assert s2.windowStart == t;
    assert !IsExpired(s2, 5000, t + 2);
    AddKeepsOrDrops(Valid(s2), 5000, "success", 10, "npm test", t + 2);
  }

  /** The scenario of three successful "npm test" runs with `max_toasts` 3 within
      one window: the first two adds are buffered, the third reports three
      successes under the title for a failure-free batch. */
  lemma ThreeSuccessesScenario(t: nat)
    ensures var s1 := AddSaved(Absent, 5000, "success", 10, "npm test", t);
            var s2 := AddSaved(Valid(s1), 5000, "success", 10, "npm test", t + 1);
            var s3 := AddSaved(Valid(s2), 5000, "success", 10, "npm test", t + 2);
            ReadyReport(s1, 3).None? && ReadyReport(s2, 3).None? && ReadyReport(s3, 3).Some?
            && var r := ReadyReport(s3, 3).value;
               r.total == 3 && r.success == 3 && r.error == 0
               && Title(r) == "3 个任务已完成"
  {
    ThreeSuccessBatches(t);
    var s1 := AddSaved(Absent, 5000, "success", 10, "npm test", t);
    var s2 := AddSaved(Valid(s1), 5000, "success", 10, "npm test", t + 1);
    var s3 := AddSaved(Valid(s2), 5000, "success", 10, "npm test", t + 2);
    var n := s3.notifications;
    assert forall i :: 0 <= i < |n| ==> n[i].status == "success";
    UniformBatchCounts(n, "success", "error");
    var r := ReadyReport(s3, 3).value;
    assert r.total == 3 && r.success == 3 && r.error == 0;
    SuccessTitleOfThree(r);
  }

  /** The title of a batch of three successes. */
  lemma SuccessTitleOfThree(r: AggregatedResult)
    requires r.total == 3 && r.error == 0
    ensures Title(r) == "3 个任务已完成"
  {
    assert NatToString(3) == "3";
  }

  // ---------------------------------------------------------------------------
  // The aggregator over the state file
  // ---------------------------------------------------------------------------

  /** `NotificationAggregator`: the state file and the two settings it uses. */
  class NotificationAggregator {
    var store: Store
    const windowMs: nat
    const maxToasts: nat

    constructor (store: Store, windowMs: nat, maxToasts: nat)
      ensures this.store == store && this.windowMs == windowMs && this.maxToasts == maxToasts
    {
      this.store := store;
      this.windowMs := windowMs;
      this.maxToasts := maxToasts;
    }

    /** `save_state`: overwrite the file with `state`, unless the write fails. */
    method SaveState(state: AggregationState, writeFails: bool) returns (outcome: Outcome<AggError>)
      modifies this
      ensures writeFails ==> outcome == Fail(WriteFailed) && store == old(store)
      ensures !writeFails ==> outcome == Pass && store == Valid(state)
    {
      if writeFails {
        return Fail(WriteFailed);
      }
      store := Valid(state);
      outcome := Pass;
    }

    /** `clear_state`: remove the file if it exists, unless the removal fails. */
    method ClearState(removeFails: bool) returns (outcome: Outcome<AggError>)
      modifies this
      ensures old(store).Absent? ==> outcome == Pass && store == Absent
      ensures !old(store).Absent? && removeFails ==> outcome == Fail(RemoveFailed) && store == old(store)
      ensures !old(store).Absent? && !removeFails ==> outcome == Pass && store == Absent
    {
      if store != Absent {
        if removeFails {
          return Fail(RemoveFailed);
        }
        store := Absent;
      }
      outcome := Pass;
    }

    /** `add_notification`: load (or start fresh), drop an expired batch, append
        the event, save unconditionally, and report the batch once it holds at
        least `maxToasts` events. The file is not cleared when reporting. */
    method AddNotification(status: string, duration: nat, cmd: string, now: nat, writeFails: bool)
      returns (result: Result<Option<AggregatedResult>, AggError>)
      modifies this
      ensures writeFails ==> result == Err(WriteFailed) && store == old(store)
      ensures !writeFails ==>
                var saved := AddSaved(old(store), windowMs, status, duration, cmd, now);
                store == Valid(saved) && result == Ok(ReadyReport(saved, maxToasts))
    {
      var state := match Load(store, now) case Ok(s) => s case Err(_) => NewState(now);
      if IsExpired(state, windowMs, now) {
        state := NewState(now);
      }
      state := Add(state, status, duration, cmd, now);
      var shouldSend := |state.notifications| >= maxToasts;
      var saved := SaveState(state, writeFails);
      if saved.Fail? {
        return Err(saved.error);
      }
      if shouldSend {
        result := Ok(Some(BuildResult(state)));
      } else {
        result := Ok(None);
      }
    }

    /** `flush`: an unreadable file is an error; an empty batch (or no file)
        reports nothing and leaves the file as it is; otherwise the file is
        removed and every buffered event is reported, expired or not. */
    method Flush(now: nat, removeFails: bool) returns (result: Result<Option<AggregatedResult>, AggError>)
      modifies this
      ensures old(store).Corrupt? ==> result == Err(Unreadable) && store == old(store)
      ensures old(store).Absent? ==> result == Ok(None) && store == old(store)
      ensures old(store).Valid? && old(store).state.notifications == [] ==>
                result == Ok(None) && store == old(store)
      ensures old(store).Valid? && old(store).state.notifications != [] && removeFails ==>
                result == Err(RemoveFailed) && store == old(store)
      ensures old(store).Valid? && old(store).state.notifications != [] && !removeFails ==>
                result == Ok(Some(BuildResult(old(store).state))) && store == Absent
    {
      var loaded := Load(store, now);
      if loaded.Err? {
        return Err(loaded.error);
      }
      var state := loaded.value;
      if state.notifications == [] {
        return Ok(None);
      }
      var cleared := ClearState(removeFails);
      if cleared.Fail? {
        return Err(cleared.error);
      }
      result := Ok(Some(BuildResult(state)));
    }
  }

  /** An error and a success added with `max_toasts` 5 are both buffered; a
      flush then reports two events, one of each, and leaves no file behind,
      so a second flush reports nothing. */
  method BufferThenFlushScenario() returns (first: Result<Option<AggregatedResult>, AggError>,
                                            second: Result<Option<AggregatedResult>, AggError>,
                                            flushed: Result<Option<AggregatedResult>, AggError>,
                                            again: Result<Option<AggregatedResult>, AggError>)
    ensures first == Ok(None) && second == Ok(None)
    ensures flushed.Ok? && flushed.value.Some?
    ensures var r := flushed.value.value; r.total == 2 && r.success == 1 && r.error == 1
    ensures again == Ok(None)
  {
    var agg := new NotificationAggregator(Absent, 5000, 5);
    first := agg.AddNotification("error", 5, "cargo build", 200, false);
    second := agg.AddNotification("success", 20, "make deploy", 201, false);
    var s := agg.store.state;
    assert s.notifications == [Notification("error", 5, "cargo build", 200), Notification("success", 20, "make deploy", 201)];
    CountStatusAppend(s.notifications[..1], s.notifications[1], "success");
    CountStatusAppend(s.notifications[..1], s.notifications[1], "error");
    assert s.notifications[..1] + [s.notifications[1]] == s.notifications;
    flushed := agg.Flush(202, false);
    again := agg.Flush(203, false);
  }
}
