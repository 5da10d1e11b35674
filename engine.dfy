/**
 * `TelegramLogic` as the source writes it: an object whose ledger and running
 * flag its methods update in place, with the backfill, source and wait loops
 * written as loops with `break` checkpoints. Every method is proved to leave
 * the object in exactly the state the corresponding function of `Migration`
 * describes, so the properties proved about those functions hold of it.
 *
 * `polls` and `trace` are not fields of `TelegramLogic`: `polls` counts
 * the observations of the flag so that the scripted `stop()` can land before
 * the right one, and `trace` records the effects performed.
 */
module Engine {
  import opened Wrappers
  import opened Numerals
  import opened Transport
  import Authorization
  import Migration

  /** What reading the progress file finds. Content that is not a ledger
      counts as unreadable. */
  datatype ProgressFile = Missing | Unreadable | Stored(content: Migration.Ledger)

  /** `_load_progress`: a missing or unreadable file gives the empty ledger. */
  function LoadProgress(f: ProgressFile): (ledger: Migration.Ledger)
    ensures f.Stored? ==> ledger == f.content
    ensures !f.Stored? ==> ledger == map[]
  {
    if f.Stored? then f.content else map[]
  }

  class TelegramLogic {
    const apiId: int
    const apiHash: string
    const startDate: Option<DateTime>
    var progress: Migration.Ledger
    var isRunning: bool
    var polls: nat
    var trace: seq<Event>
    var file: ProgressFile

    /** The progress file always holds what the in-memory ledger holds: every
        update is written through before the next step. */
    ghost predicate Valid()
      reads this
    {
      LoadProgress(file) == progress
    }

    function Snapshot(): Migration.State
      reads this
    {
      Migration.State(progress, isRunning, polls, trace)
    }

    /** `__init__`: the ledger is read from the progress file; the flag is
        clear. (`int(api_id)` is done by the caller, see `Controller`.) */
    constructor (apiId: int, apiHash: string, startDate: Option<DateTime>, file: ProgressFile)
      ensures this.apiId == apiId && this.apiHash == apiHash && this.startDate == startDate
      ensures progress == LoadProgress(file) && this.file == file
      ensures !isRunning && polls == 0 && trace == []
      ensures Valid()
    {
      this.apiId := apiId;
      this.apiHash := apiHash;
      this.startDate := startDate;
      this.file := file;
      progress := LoadProgress(file);
      isRunning := false;
      polls := 0;
      trace := [];
    }

    /** `_save_progress`: the whole ledger is written to the file. */
    method SaveProgress()
      modifies this
      ensures file == Stored(progress) && Valid()
      ensures progress == old(progress) && isRunning == old(isRunning) && polls == old(polls)
      ensures trace == old(trace)
    {
      file := Stored(progress);
    }

    /** `_update_progress`: one key set, every other key unchanged, and the
        ledger written through. */
    method UpdateProgress(key: string, id: int)
      modifies this
      ensures Snapshot() == Migration.Record(old(Snapshot()), key, id)
      ensures key in progress && progress[key] == id
      ensures forall k :: k != key ==> (k in progress <==> k in old(progress))
      ensures forall k :: k != key && k in progress ==> progress[k] == old(progress)[k]
      ensures Valid()
    {
      progress := progress[key := id];
      SaveProgress();
      trace := trace + [Recorded(key, id)];
    }

    /** `stop`: only the flag is cleared. */
    method Stop()
      modifies this
      ensures !isRunning
      ensures progress == old(progress) && polls == old(polls) && trace == old(trace) && file == old(file)
    {
      isRunning := false;
    }

    /** One read of `is_running`. The UI thread's `stop()` is scheduled before
        the `stopAt`-th read of a run. */
    method StillRunning(stopAt: nat) returns (running: bool)
      modifies this
      ensures Snapshot() == Migration.Poll(old(Snapshot()), stopAt)
      ensures running == isRunning
      ensures file == old(file)
    {
      if polls >= stopAt {
        Stop();
      }
      polls := polls + 1;
      running := isRunning;
    }

    /** `asyncio.sleep(units)`. */
    method Pause(units: nat)
      modifies this
      ensures Snapshot() == Migration.Emit(old(Snapshot()), [Event.Sleep(units)])
      ensures file == old(file)
    {
      trace := trace + [Event.Sleep(units)];
    }

    /** `_forward_message`: one forwarding attempt, whose result is scripted
        by the item. */
    method ForwardMessage(target: int, item: Item) returns (outcome: ForwardResult)
      modifies this
      ensures outcome == item.outcome
      ensures Snapshot() == Migration.Emit(old(Snapshot()), [Forward(target, item.id)])
      ensures file == old(file)
    {
      trace := trace + [Forward(target, item.id)];
      outcome := item.outcome;
    }

    /** The body of the backfill loop for one item, after the flag check. */
    method HandleItem(key: string, target: int, item: Item)
      requires Valid()
      modifies this
      ensures Snapshot() == Migration.HandleItem(old(Snapshot()), key, target, item)
      ensures Valid()
    {
      if item.isService {
        UpdateProgress(key, item.id);
      } else {
        var outcome := ForwardMessage(target, item);
        match outcome
        case Forwarded =>
          UpdateProgress(key, item.id);
          Pause(2);
        case FloodWait(seconds) =>
          Pause(seconds);
        case Failed =>
          UpdateProgress(key, item.id);
          Pause(5);
      }
    }

    /** `_migrate_source`. When the backfill loop gets to the end of what
        the enumeration yielded, the enumeration is asked for one more item,
        and `raised` says whether that raised. */
    method MigrateSource(source: int, target: int, history: (int, StartPoint) -> seq<Item>,
                         raises: (int, StartPoint) -> bool, stopAt: nat)
      returns (raised: bool)
      requires Valid()
      modifies this
      ensures Snapshot() == Migration.MigrateSource(old(Snapshot()), source, target, startDate, history, stopAt)
      ensures old(isRunning) ==>
        (raised <==> isRunning && raises(source, Migration.StartPointFor(old(progress), source, startDate)))
      ensures Valid()
    {
      var key := Str(source);
      var start;
      if startDate.Some? {
        start := FromDate(startDate.value);
      } else {
        var lastId := if key in progress then progress[key] else 0;
        start := AfterId(lastId);
      }
      trace := trace + [Enumerate(source, start)];
      var items := history(source, start);
      var exhausted := Backfill(key, target, items, stopAt);
      raised := exhausted && raises(source, start);
    }

    /** The loop of `_migrate_source` over the enumerated items: check the
        flag before each item and leave at the first `False`. `exhausted`
        says that the loop got to the end of the items instead. */
    method Backfill(key: string, target: int, items: seq<Item>, stopAt: nat) returns (exhausted: bool)
      requires Valid()
      modifies this
      ensures Snapshot() == Migration.MigrateItems(old(Snapshot()), key, target, items, stopAt)
      ensures exhausted <==> items == [] || isRunning
      ensures Valid()
    {
      ghost var goal := Migration.MigrateItems(Snapshot(), key, target, items, stopAt);
      var i := 0;
      exhausted := true;
      while i < |items|
        invariant 0 <= i <= |items|
        invariant Valid()
        invariant Migration.MigrateItems(Snapshot(), key, target, items[i..], stopAt) == goal
        invariant exhausted && (i > 0 ==> isRunning)
        decreases |items| - i
      {
        var running := StillRunning(stopAt);
        if !running {
          exhausted := false;
          break;
        }
        HandleItem(key, target, items[i]);
        assert items[i..][1..] == items[i + 1..];
        i := i + 1;
      }
    }

    /** `new_message_handler`. */
    method HandleNewMessage(target: int, n: Notification, stopAt: nat)
      requires Valid()
      modifies this
      ensures Snapshot() == Migration.HandleNotification(old(Snapshot()), target, n, stopAt)
      ensures Valid()
    {
      var running := StillRunning(stopAt);
      if !running || n.item.isService {
        return;
      }
      var outcome := ForwardMessage(target, n.item);
      match outcome
      case Forwarded =>
        var chat := if n.chatId.Some? && n.chatId.value != 0 then n.chatId else n.channelId;
        if chat.Some? && chat.value != 0 {
          UpdateProgress(Str(chat.value), n.item.id);
        }
      case FloodWait(seconds) =>
        Pause(seconds);
      case Failed =>
    }

    /** `_monitor_new_posts`: register the handler, let it see each
        notification, poll the flag once a time unit until it reads `False`,
        then remove the handler if registration returned a truthy handle. */
    method MonitorNewPosts(target: int, sources: seq<int>, env: Migration.Env)
      requires Valid()
      modifies this
      ensures Snapshot() == Migration.MonitorNewPosts(old(Snapshot()), target, sources, env)
      ensures Valid()
    {
      trace := trace + [Subscribe(sources)];
      var notes := env.notifications;
      ghost var handled := Migration.HandleAll(Snapshot(), target, notes, env.stopAt);
      for i := 0 to |notes|
        invariant Valid()
        invariant Migration.HandleAll(Snapshot(), target, notes[i..], env.stopAt) == handled
      {
        HandleNewMessage(target, notes[i], env.stopAt);
        assert notes[i..][1..] == notes[i + 1..];
      }
      ghost var stopped := Migration.WaitForStop(Snapshot(), env.stopAt);
      var running := StillRunning(env.stopAt);
      while running
        invariant Valid() && running == isRunning
        invariant running ==> polls <= env.stopAt
        invariant if running then Migration.WaitForStop(Migration.Emit(Snapshot(), [Event.Sleep(1)]), env.stopAt) == stopped
                  else Snapshot() == stopped
        decreases if polls <= env.stopAt then env.stopAt - polls + 1 else 0
      {
        Pause(1);
        running := StillRunning(env.stopAt);
      }
      if env.handlerHandle {
        trace := trace + [Unsubscribe];
      }
    }

    /** `_authorize`, run against the scripted prompt answers and replies. */
    method Authorize(script: Authorization.AuthScript) returns (result: Authorization.AuthResult)
      modifies this
      ensures result == Authorization.Authorize(script).0
      ensures Snapshot() == Migration.Emit(old(Snapshot()), Authorization.Authorize(script).1)
      ensures file == old(file)
    {
      var handshake := Authorization.Authorize(script);
      trace := trace + handshake.1;
      result := handshake.0;
    }

    /** `_run`. */
    method Run(sources: seq<int>, target: int, env: Migration.Env) returns (outcome: Outcome<Migration.Fatal>)
      requires Valid()
      modifies this
      ensures (Snapshot(), outcome) == Migration.Run(old(Snapshot()), sources, target, startDate, env)
      ensures Valid()
    {
      trace := trace + [Connect];
      if !env.connects {
        return Fail(Migration.ConnectFailed);
      }
      var auth := Authorize(env.auth);
      if auth.Aborted? {
        trace := trace + [Disconnect];
        return Fail(Migration.AuthAborted(auth.reason));
      }
      ghost var backfilled := Migration.SourceLoop(Snapshot(), sources, target, startDate, env);
      var i := 0;
      while i < |sources|
        invariant 0 <= i <= |sources|
        invariant Valid()
        invariant Migration.SourceLoop(Snapshot(), sources[i..], target, startDate, env) == backfilled
        decreases |sources| - i
      {
        var running := StillRunning(env.stopAt);
        if !running {
          break;
        }
        var raised := MigrateSource(sources[i], target, env.history, env.raises, env.stopAt);
        if raised {
          trace := trace + [Disconnect];
          return Fail(Migration.EnumerationFailed(sources[i]));
        }
        assert sources[i..][1..] == sources[i + 1..];
        i := i + 1;
      }
      var running := StillRunning(env.stopAt);
      if running {
        MonitorNewPosts(target, sources, env);
      }
      trace := trace + [Disconnect];
      outcome := Pass;
    }

    /** `start_migration`: an empty source list raises before the flag is set;
        otherwise the flag is set, the run performed, and the flag cleared
        however the run ended. */
    method StartMigration(sources: seq<int>, target: int, env: Migration.Env) returns (outcome: Outcome<Migration.Fatal>)
      requires Valid()
      modifies this
      ensures (Snapshot(), outcome) == Migration.Start(old(Snapshot()), sources, target, startDate, env)
      ensures sources != [] ==> !isRunning
      ensures sources == [] ==> isRunning == old(isRunning)
      ensures Valid()
    {
      if sources == [] {
        return Fail(Migration.NoSources);
      }
      isRunning := true;
      polls := 0;
      outcome := Run(sources, target, env);
      isRunning := false;
    }
  }
}
