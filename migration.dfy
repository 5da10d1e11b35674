/**
 * The migration engine as state-transforming functions: the ledger of the
 * last handled message per source, the running flag with every observation
 * of it counted, and the trace of effects. `Engine.TelegramLogic` implements
 * each of these with the source's loops and is proved equal to them.
 *
 * The UI thread's `stop()` is scripted by `stopAt`: it is called just before
 * the flag is observed for the `stopAt`-th time (counting from 0) in a run,
 * so every observation from that one on reads `False`.
 */
module Migration {
  import opened Wrappers
  import opened Numerals
  import opened Transport
  import opened Authorization

  /** The progress ledger: source key (`str(source_id)`) to last handled id. */
  type Ledger = map<string, int>

  /** `progress.get(key, 0)`. */
  function LastId(ledger: Ledger, key: string): int {
    if key in ledger then ledger[key] else 0
  }

  /** The engine's observable state. */
  datatype State = State(ledger: Ledger, running: bool, polls: nat, trace: seq<Event>)

  /** Everything outside the engine during one run: whether `connect()`
      succeeds, the authorization script, what enumerating a source from a
      start point yields (oldest first), whether asking that enumeration for
      the item after those raises instead of ending it (an id the client
      cannot resolve, a rate limit it does not sit out itself), the
      live-tail notifications, whether registering the handler returns a
      truthy handle, and when the UI stops. */
  datatype Env = Env(
    connects: bool,
    auth: AuthScript,
    history: (int, StartPoint) -> seq<Item>,
    raises: (int, StartPoint) -> bool,
    notifications: seq<Notification>,
    handlerHandle: bool,
    stopAt: nat)

  /** Why `start_migration` raised. */
  datatype Fatal =
    | NoSources
    | ConnectFailed
    | AuthAborted(reason: AbortReason)
    | EnumerationFailed(source: int)

  /** One observation of `is_running`. */
  function Poll(st: State, stopAt: nat): (r: State)
    ensures r.running <==> st.running && st.polls < stopAt
    ensures r.ledger == st.ledger && r.trace == st.trace && r.polls == st.polls + 1
  {
    st.(running := st.running && st.polls < stopAt, polls := st.polls + 1)
  }

  function Emit(st: State, events: seq<Event>): State {
    st.(trace := st.trace + events)
  }

  /** `_update_progress`: set one key and write the whole ledger durably. */
  function Record(st: State, key: string, id: int): State {
    st.(ledger := st.ledger[key := id], trace := st.trace + [Recorded(key, id)])
  }

  /** Recording sets one key to the id, keeps every other key as it was, and
      writes the ledger once. */
  lemma RecordSetsOneKey(st: State, key: string, id: int)
    ensures var r := Record(st, key, id);
            && key in r.ledger && r.ledger[key] == id
            && (forall k :: k != key ==> (k in r.ledger <==> k in st.ledger))
            && (forall k :: k != key && k in st.ledger ==> r.ledger[k] == st.ledger[k])
            && r.trace == st.trace + [Recorded(key, id)]
  {
  }

  /** Whether backfill writes an item's id to the ledger: every item except a
      non-service one whose forwarding hit a flood wait. */
  predicate Recordable(item: Item) {
    item.isService || !item.outcome.FloodWait?
  }

  /** The effects of one backfill iteration that passed the flag check. */
  function ItemEvents(key: string, target: int, item: Item): seq<Event> {
    if item.isService then [Recorded(key, item.id)]
    else match item.outcome
      case Forwarded => [Forward(target, item.id), Recorded(key, item.id), Sleep(2)]
      case FloodWait(n) => [Forward(target, item.id), Sleep(n)]
      case Failed => [Forward(target, item.id), Recorded(key, item.id), Sleep(5)]
  }

  /** The body of the backfill loop for one item (after the flag check). */
  function HandleItem(st: State, key: string, target: int, item: Item): (r: State)
    ensures r.ledger == if Recordable(item) then st.ledger[key := item.id] else st.ledger
    ensures r.trace == st.trace + ItemEvents(key, target, item)
    ensures r.running == st.running && r.polls == st.polls
  {
    if item.isService then Record(st, key, item.id)
    else
      var tried := Emit(st, [Forward(target, item.id)]);
      match item.outcome
      case Forwarded => Emit(Record(tried, key, item.id), [Sleep(2)])
      case FloodWait(n) => Emit(tried, [Sleep(n)])
      case Failed => Emit(Record(tried, key, item.id), [Sleep(5)])
  }

  /** The backfill loop over the items a source yields: check the flag, stop
      at the first `False`, otherwise handle the item and go on. */
  function MigrateItems(st: State, key: string, target: int, items: seq<Item>, stopAt: nat): (r: State)
    ensures st.trace <= r.trace
    decreases |items|
  {
    if items == [] then st
    else
      var checked := Poll(st, stopAt);
      if !checked.running then checked
      else MigrateItems(HandleItem(checked, key, target, items[0]), key, target, items[1..], stopAt)
  }

  /** Where `_migrate_source` asks the transport to start: at the fixed date
      when one was chosen (the ledger is not consulted), otherwise just after
      the ledger's id for the source, 0 (the beginning) when it has none. */
  function StartPointFor(ledger: Ledger, source: int, startDate: Option<DateTime>): (p: StartPoint)
    ensures startDate.Some? ==> p == FromDate(startDate.value)
    ensures startDate.None? && Str(source) in ledger ==> p == AfterId(ledger[Str(source)])
    ensures startDate.None? && Str(source) !in ledger ==> p == AfterId(0)
  {
    if startDate.Some? then FromDate(startDate.value) else AfterId(LastId(ledger, Str(source)))
  }

  /** `_migrate_source`: enumerate the source from its start point and run
      the backfill loop over what the transport yields. */
  function MigrateSource(st: State, source: int, target: int, startDate: Option<DateTime>,
                         history: (int, StartPoint) -> seq<Item>, stopAt: nat): (r: State)
    ensures st.trace <= r.trace && |r.trace| > |st.trace|
    ensures r.trace[|st.trace|] == Enumerate(source, StartPointFor(st.ledger, source, startDate))
  {
    var start := StartPointFor(st.ledger, source, startDate);
    var asked := Emit(st, [Enumerate(source, start)]);
    MigrateItems(asked, Str(source), target, history(source, start), stopAt)
  }

  /** The source loop of `_run`: one source at a time, in the given order,
      leaving as soon as the flag reads `False`. When the backfill loop of a
      source gets to the end of what the enumeration yielded (no check read
      `False`, so the flag still reads `True`) and asking for the next item
      raises, the exception leaves the loop: the second component names that
      source, and the ledger keeps everything recorded up to then. */
  function RunSources(st: State, sources: seq<int>, target: int, startDate: Option<DateTime>,
                      history: (int, StartPoint) -> seq<Item>, raises: (int, StartPoint) -> bool,
                      stopAt: nat): (r: (State, Option<int>))
    ensures st.trace <= r.0.trace
    ensures r.1.Some? ==> r.1.value in sources && r.0.running
    decreases |sources|
  {
    if sources == [] then (st, None)
    else
      var checked := Poll(st, stopAt);
      if !checked.running then (checked, None)
      else
        var migrated := MigrateSource(checked, sources[0], target, startDate, history, stopAt);
        if migrated.running && raises(sources[0], StartPointFor(checked.ledger, sources[0], startDate))
        then (migrated, Some(sources[0]))
        else RunSources(migrated, sources[1..], target, startDate, history, raises, stopAt)
  }

  predicate Truthy(x: Option<int>) {
    x.Some? && x.value != 0
  }

  /** The chat a live message is recorded under: its `chat_id` when truthy,
      else its peer's `channel_id` when truthy, else none. */
  function ChatOf(n: Notification): (c: Option<int>)
    ensures c.Some? ==> c.value != 0 && (c == n.chatId || c == n.channelId)
    ensures Truthy(n.chatId) ==> c == n.chatId
    ensures !Truthy(n.chatId) && Truthy(n.channelId) ==> c == n.channelId
    ensures c.None? <==> !Truthy(n.chatId) && !Truthy(n.channelId)
  {
    if Truthy(n.chatId) then n.chatId
    else if Truthy(n.channelId) then n.channelId
    else None
  }

  /** `new_message_handler`: inert once the flag is `False`; ignores service
      messages; otherwise forwards, and records only a successful forward of
      a message whose chat is known. A flood wait pauses; other failures are
      dropped; neither is recorded. */
  function HandleNotification(st: State, target: int, n: Notification, stopAt: nat): (r: State)
    ensures r.polls == st.polls + 1 && (r.running <==> st.running && st.polls < stopAt)
    ensures !r.running || n.item.isService ==> r.ledger == st.ledger && r.trace == st.trace
    ensures r.ledger == if r.running && !n.item.isService && n.item.outcome.Forwarded? && ChatOf(n).Some?
                        then st.ledger[Str(ChatOf(n).value) := n.item.id]
                        else st.ledger
    ensures |st.trace| <= |r.trace| && r.trace[..|st.trace|] == st.trace
    ensures r.running && !n.item.isService ==>
      |r.trace| > |st.trace| && r.trace[|st.trace|] == Forward(target, n.item.id)
  {
    var checked := Poll(st, stopAt);
    if !checked.running || n.item.isService then checked
    else
      var tried := Emit(checked, [Forward(target, n.item.id)]);
      match n.item.outcome
      case Forwarded =>
        var chat := ChatOf(n);
        if chat.Some? then Record(tried, Str(chat.value), n.item.id) else tried
      case FloodWait(seconds) => Emit(tried, [Sleep(seconds)])
      case Failed => tried
  }

  /** The handler applied to each notification in arrival order. */
  function HandleAll(st: State, target: int, notes: seq<Notification>, stopAt: nat): (r: State)
    ensures st.trace <= r.trace
    decreases |notes|
  {
    if notes == [] then st
    else HandleAll(HandleNotification(st, target, notes[0], stopAt), target, notes[1..], stopAt)
  }

  /** `while self.is_running: await asyncio.sleep(1)`. */
  function WaitForStop(st: State, stopAt: nat): (r: State)
    ensures !r.running && r.polls > st.polls && r.ledger == st.ledger && st.trace <= r.trace
    decreases if st.polls < stopAt then stopAt - st.polls else 0
  {
    var checked := Poll(st, stopAt);
    if !checked.running then checked
    else WaitForStop(Emit(checked, [Sleep(1)]), stopAt)
  }

  /** `_monitor_new_posts`: subscribe, handle the notifications, wait for the
      stop, then remove the handler if registration returned a truthy handle. */
  function MonitorNewPosts(st: State, target: int, sources: seq<int>, env: Env): (r: State)
    ensures !r.running && st.trace <= r.trace
    ensures |r.trace| > |st.trace| && r.trace[|st.trace|] == Subscribe(sources)
    ensures env.handlerHandle ==> r.trace[|r.trace| - 1] == Unsubscribe
  {
    var subscribed := Emit(st, [Subscribe(sources)]);
    var handled := HandleAll(subscribed, target, env.notifications, env.stopAt);
    var stopped := WaitForStop(handled, env.stopAt);
    if env.handlerHandle then Emit(stopped, [Unsubscribe]) else stopped
  }

  /** The state and outcome of the source loop of a run whose handshake
      left the session in state `authorized`. */
  function SourceLoop(authorized: State, sources: seq<int>, target: int, startDate: Option<DateTime>, env: Env)
    : (State, Option<int>)
  {
    RunSources(authorized, sources, target, startDate, env.history, env.raises, env.stopAt)
  }

  /** `_run`: connect (a failure raises before anything else), authorize,
      backfill each source, enter live tail only if the flag still reads
      `True`, and disconnect on the way out, also when authorization or an
      enumeration raised. A failed enumeration keeps what backfill recorded
      before it. */
  function Run(st: State, sources: seq<int>, target: int, startDate: Option<DateTime>, env: Env)
    : (r: (State, Outcome<Fatal>))
    ensures r.1 == Fail(ConnectFailed) <==> !env.connects
    ensures r.1.Fail? && r.1.error.AuthAborted? <==> env.connects && Authorize(env.auth).0.Aborted?
    ensures r.1.Fail? && r.1.error.AuthAborted? ==> r.1.error.reason == Authorize(env.auth).0.reason
    ensures r.1 != Fail(NoSources)
    ensures r.1.Fail? && !r.1.error.EnumerationFailed? ==> r.0.ledger == st.ledger
    ensures var b := SourceLoop(Emit(Emit(st, [Connect]), Authorize(env.auth).1), sources, target, startDate, env);
            r.1.Fail? && r.1.error.EnumerationFailed? <==>
              env.connects && Authorize(env.auth).0.Authorized? && b.1.Some?
    ensures var b := SourceLoop(Emit(Emit(st, [Connect]), Authorize(env.auth).1), sources, target, startDate, env);
            r.1.Fail? && r.1.error.EnumerationFailed? ==>
              r.1.error.source == b.1.value && r.1.error.source in sources && r.0.ledger == b.0.ledger
    ensures r.1 == Pass ==> !r.0.running
    ensures st.trace <= r.0.trace && |r.0.trace| > |st.trace| && r.0.trace[|st.trace|] == Connect
    ensures r.0.trace[|r.0.trace| - 1] == Disconnect <==> env.connects
  {
    var connected := Emit(st, [Connect]);
    if !env.connects then (connected, Fail(ConnectFailed))
    else
      var auth := Authorize(env.auth);
      var authorized := Emit(connected, auth.1);
      if auth.0.Aborted? then (Emit(authorized, [Disconnect]), Fail(AuthAborted(auth.0.reason)))
      else
        var backfilled := SourceLoop(authorized, sources, target, startDate, env);
        if backfilled.1.Some? then (Emit(backfilled.0, [Disconnect]), Fail(EnumerationFailed(backfilled.1.value)))
        else
          var checked := Poll(backfilled.0, env.stopAt);
          var tailed := if checked.running then MonitorNewPosts(checked, target, sources, env) else checked;
          (Emit(tailed, [Disconnect]), Pass)
  }

  /** `start_migration`: an empty source list raises before the flag is set;
      otherwise set the flag, run, and clear the flag however the run ends. */
  function Start(st: State, sources: seq<int>, target: int, startDate: Option<DateTime>, env: Env)
    : (r: (State, Outcome<Fatal>))
    ensures r.1 == Fail(NoSources) <==> sources == []
    ensures sources == [] ==> r.0 == st
    ensures sources != [] ==> !r.0.running
    ensures r.1.Fail? && !r.1.error.EnumerationFailed? ==> r.0.ledger == st.ledger
    ensures r.1.Fail? && r.1.error.EnumerationFailed? ==> r.1.error.source in sources
    ensures st.trace <= r.0.trace
  {
    if sources == [] then (st, Fail(NoSources))
    else
      var ran := Run(st.(running := true, polls := 0), sources, target, startDate, env);
      (ran.0.(running := false), ran.1)
  }
}
