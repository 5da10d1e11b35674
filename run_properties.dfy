/**
 * Properties of a whole run (`start_migration` through `_run`): which ledger
 * keys it can touch, what a stop before the first check leaves, that live
 * tail is entered only when the flag survived backfill, and the two worked
 * runs over sources 100 and 200.
 */
module RunProperties {
  import opened Wrappers
  import opened Numerals
  import opened Transport
  import opened Authorization
  import opened Migration
  import BackfillProperties

  /** Every key outside `keys` is present in `b` exactly when it is in `a`,
      with the same value. */
  ghost predicate UnchangedOutside(a: Ledger, b: Ledger, keys: set<string>) {
    forall k :: k !in keys ==> (k in a <==> k in b) && (k in a ==> a[k] == b[k])
  }

  /** The keys of the given sources. */
  function SourceKeys(sources: seq<int>): set<string> {
    set s | s in sources :: Str(s)
  }

  /** The keys live tail can write: the known chats of the notifications. */
  function ChatKeys(notes: seq<Notification>): set<string> {
    set n | n in notes && ChatOf(n).Some? :: Str(ChatOf(n).value)
  }

  lemma Widen(a: Ledger, b: Ledger, c: Ledger, keys: set<string>, more: set<string>)
    requires UnchangedOutside(a, b, keys) && UnchangedOutside(b, c, more)
    ensures UnchangedOutside(a, c, keys + more)
  {
  }

  /** Backfilling one source touches only that source's key. */
  lemma {:induction false} MigrateItemsFrame(st: State, key: string, target: int, items: seq<Item>, stopAt: nat)
    ensures UnchangedOutside(st.ledger, MigrateItems(st, key, target, items, stopAt).ledger, {key})
    decreases |items|
  {
    if items != [] {
      var checked := Poll(st, stopAt);
      if checked.running {
        MigrateItemsFrame(HandleItem(checked, key, target, items[0]), key, target, items[1..], stopAt);
      }
    }
  }

  /** The source loop touches only the keys of the given sources. */
  lemma {:induction false} RunSourcesFrame(st: State, sources: seq<int>, target: int, startDate: Option<DateTime>,
                                           history: (int, StartPoint) -> seq<Item>, raises: (int, StartPoint) -> bool,
                                           stopAt: nat)
    ensures UnchangedOutside(st.ledger, RunSources(st, sources, target, startDate, history, raises, stopAt).0.ledger,
                             SourceKeys(sources))
    decreases |sources|
  {
    if sources != [] {
      var checked := Poll(st, stopAt);
      if checked.running {
        var key := Str(sources[0]);
        var start := StartPointFor(checked.ledger, sources[0], startDate);
        var asked := Emit(checked, [Enumerate(sources[0], start)]);
        MigrateItemsFrame(asked, key, target, history(sources[0], start), stopAt);
        var next := MigrateSource(checked, sources[0], target, startDate, history, stopAt);
        RunSourcesFrame(next, sources[1..], target, startDate, history, raises, stopAt);
        assert SourceKeys(sources) == {key} + SourceKeys(sources[1..]) by {
          assert sources == [sources[0]] + sources[1..];
        }
        Widen(st.ledger, next.ledger, RunSources(next, sources[1..], target, startDate, history, raises, stopAt).0.ledger,
              {key}, SourceKeys(sources[1..]));
      }
    }
  }

  /** The source loop handles the sources one at a time, in the given order:
      the sources it enumerates are a prefix of the list, each once; the
      whole list when the loop ends with the flag still reading `True` and
      no enumeration raised; and, when one raised, the prefix ends with the
      source that raised, so no later source was enumerated. */
  lemma RunSourcesInOrder(st: State, sources: seq<int>, target: int, startDate: Option<DateTime>,
                          history: (int, StartPoint) -> seq<Item>, raises: (int, StartPoint) -> bool, stopAt: nat)
    ensures var r := RunSources(st, sources, target, startDate, history, raises, stopAt);
            exists m :: 0 <= m <= |sources|
                        && BackfillProperties.EnumeratedSources(r.0.trace[|st.trace|..]) == sources[..m]
                        && (r.0.running && r.1.None? ==> m == |sources|)
                        && (r.1.Some? ==> m > 0 && sources[m - 1] == r.1.value)
  {
    var m := EnumeratedPrefix(st, sources, target, startDate, history, raises, stopAt);
  }

  lemma {:induction false} EnumeratedPrefix(st: State, sources: seq<int>, target: int, startDate: Option<DateTime>,
                                            history: (int, StartPoint) -> seq<Item>, raises: (int, StartPoint) -> bool,
                                            stopAt: nat)
    returns (m: nat)
    ensures var r := RunSources(st, sources, target, startDate, history, raises, stopAt);
            && m <= |sources|
            && BackfillProperties.EnumeratedSources(r.0.trace[|st.trace|..]) == sources[..m]
            && (r.0.running && r.1.None? ==> m == |sources|)
            && (r.1.Some? ==> m > 0 && sources[m - 1] == r.1.value)
    decreases |sources|, 1
  {
    if sources == [] || !Poll(st, stopAt).running {
      var r := RunSources(st, sources, target, startDate, history, raises, stopAt);
      assert r.0.trace[|st.trace|..] == [];
      assert sources[..0] == [];
      m := 0;
    } else {
      m := EnumeratedFromFirst(st, sources, target, startDate, history, raises, stopAt);
    }
  }

  /** The ordering proof once the first source has been enumerated. */
  lemma {:induction false} EnumeratedFromFirst(st: State, sources: seq<int>, target: int, startDate: Option<DateTime>,
                                               history: (int, StartPoint) -> seq<Item>, raises: (int, StartPoint) -> bool,
                                               stopAt: nat)
    returns (m: nat)
    requires sources != [] && Poll(st, stopAt).running
    ensures var r := RunSources(st, sources, target, startDate, history, raises, stopAt);
            && m <= |sources|
            && BackfillProperties.EnumeratedSources(r.0.trace[|st.trace|..]) == sources[..m]
            && (r.0.running && r.1.None? ==> m == |sources|)
            && (r.1.Some? ==> m > 0 && sources[m - 1] == r.1.value)
    decreases |sources|, 0
  {
    var r := RunSources(st, sources, target, startDate, history, raises, stopAt);
    var checked := Poll(st, stopAt);
    var next := MigrateSource(checked, sources[0], target, startDate, history, stopAt);
    OneSourceEnumerated(checked, sources[0], target, startDate, history, stopAt);
    if next.running && raises(sources[0], StartPointFor(checked.ledger, sources[0], startDate)) {
      assert r == (next, Some(sources[0]));
      EnumeratedFirst(st.trace, next.trace, sources);
      m := 1;
    } else {
      var k := EnumeratedPrefix(next, sources[1..], target, startDate, history, raises, stopAt);
      assert r == RunSources(next, sources[1..], target, startDate, history, raises, stopAt);
      EnumeratedSplice(st.trace, next.trace, r, sources, k);
      m := k + 1;
    }
  }

  /** The one fact about a source's backfill that the ordering proof needs. */
  lemma OneSourceEnumerated(st: State, source: int, target: int, startDate: Option<DateTime>,
                            history: (int, StartPoint) -> seq<Item>, stopAt: nat)
    ensures var r := MigrateSource(st, source, target, startDate, history, stopAt);
            st.trace <= r.trace && BackfillProperties.EnumeratedSources(r.trace[|st.trace|..]) == [source]
  {
    BackfillProperties.MigrateSourceEnumeratesOnce(st, source, target, startDate, history, stopAt);
  }

  /** The enumerations of the first source alone. */
  lemma EnumeratedFirst(t0: seq<Event>, t1: seq<Event>, sources: seq<int>)
    requires t0 <= t1 && sources != []
    requires BackfillProperties.EnumeratedSources(t1[|t0|..]) == [sources[0]]
    ensures BackfillProperties.EnumeratedSources(t1[|t0|..]) == sources[..1]
  {
    assert sources[..1] == [sources[0]];
  }

  /** Splicing the enumerations of one source and of the rest of the list. */
  lemma EnumeratedSplice(t0: seq<Event>, t1: seq<Event>, r: (State, Option<int>), sources: seq<int>, k: nat)
    requires t0 <= t1 <= r.0.trace && sources != [] && k <= |sources| - 1
    requires BackfillProperties.EnumeratedSources(t1[|t0|..]) == [sources[0]]
    requires BackfillProperties.EnumeratedSources(r.0.trace[|t1|..]) == sources[1..][..k]
    requires r.0.running && r.1.None? ==> k == |sources| - 1
    requires r.1.Some? ==> k > 0 && sources[1..][k - 1] == r.1.value
    ensures BackfillProperties.EnumeratedSources(r.0.trace[|t0|..]) == sources[..k + 1]
    ensures r.0.running && r.1.None? ==> k + 1 == |sources|
    ensures r.1.Some? ==> sources[k] == r.1.value
  {
    var t2 := r.0.trace;
    assert t2[|t0|..] == t1[|t0|..] + t2[|t1|..];
    BackfillProperties.EnumeratedSourcesOfConcat(t1[|t0|..], t2[|t1|..]);
    assert sources[..k + 1] == [sources[0]] + sources[1..][..k];
  }

  /** The live-tail handler touches only the keys of known chats. */
  lemma {:induction false} HandleAllFrame(st: State, target: int, notes: seq<Notification>, stopAt: nat)
    ensures UnchangedOutside(st.ledger, HandleAll(st, target, notes, stopAt).ledger, ChatKeys(notes))
    decreases |notes|
  {
    if notes != [] {
      var next := HandleNotification(st, target, notes[0], stopAt);
      HandleAllFrame(next, target, notes[1..], stopAt);
      assert ChatKeys(notes) == ChatKeys([notes[0]]) + ChatKeys(notes[1..]) by {
        assert notes == [notes[0]] + notes[1..];
      }
      Widen(st.ledger, next.ledger, HandleAll(next, target, notes[1..], stopAt).ledger,
            ChatKeys([notes[0]]), ChatKeys(notes[1..]));
    }
  }

  /** Nothing else changes: a whole run writes no ledger key other than
      those of its sources and of the chats of the live notifications. */
  lemma StartFrame(st: State, sources: seq<int>, target: int, startDate: Option<DateTime>, env: Env)
    ensures UnchangedOutside(st.ledger, Start(st, sources, target, startDate, env).0.ledger,
                             SourceKeys(sources) + ChatKeys(env.notifications))
  {
    if sources != [] && env.connects && Authorize(env.auth).0.Authorized? {
      var authorized := Emit(Emit(st.(running := true, polls := 0), [Connect]), Authorize(env.auth).1);
      RunSourcesFrame(authorized, sources, target, startDate, env.history, env.raises, env.stopAt);
      var backfilled := RunSources(authorized, sources, target, startDate, env.history, env.raises, env.stopAt).0;
      var checked := Poll(backfilled, env.stopAt);
      if RunSources(authorized, sources, target, startDate, env.history, env.raises, env.stopAt).1.None? && checked.running {
        var subscribed := Emit(checked, [Subscribe(sources)]);
        HandleAllFrame(subscribed, target, env.notifications, env.stopAt);
        Widen(st.ledger, backfilled.ledger, HandleAll(subscribed, target, env.notifications, env.stopAt).ledger,
              SourceKeys(sources), ChatKeys(env.notifications));
      }
    }
  }

  /** A stop before the first check: the run connects, authorizes and
      disconnects, and enumerates, forwards and records nothing. */
  lemma StopBeforeFirstCheck(st: State, sources: seq<int>, target: int, startDate: Option<DateTime>, env: Env)
    requires sources != [] && env.stopAt == 0
    requires env.connects && Authorize(env.auth).0.Authorized?
    ensures var r := Start(st, sources, target, startDate, env);
            && r.1 == Pass && !r.0.running && r.0.ledger == st.ledger
            && r.0.trace == st.trace + [Connect] + Authorize(env.auth).1 + [Disconnect]
  {
    var authorized := Emit(Emit(st.(running := true, polls := 0), [Connect]), Authorize(env.auth).1);
    assert RunSources(authorized, sources, target, startDate, env.history, env.raises, 0) == (Poll(authorized, 0), None);
  }

  /** Once the flag reads `False` the source loop ends at its next check:
      no further source is enumerated and the ledger is left as it is. */
  lemma StopSkipsRemainingSources(st: State, sources: seq<int>, target: int, startDate: Option<DateTime>,
                                  history: (int, StartPoint) -> seq<Item>, raises: (int, StartPoint) -> bool,
                                  stopAt: nat)
    requires !st.running
    ensures var r := RunSources(st, sources, target, startDate, history, raises, stopAt);
            r.1.None? && !r.0.running && r.0.ledger == st.ledger && r.0.trace == st.trace
  {
  }

  /** Live tail is entered only when every source is done and the flag
      still reads `True`: when an enumeration raised, or the read after the
      source loop gives `False` (because the stop came during backfill or
      just after its last source), the run disconnects right after backfill. */
  lemma NoLiveTailAfterStop(st: State, sources: seq<int>, target: int, startDate: Option<DateTime>, env: Env)
    requires env.connects && Authorize(env.auth).0.Authorized?
    requires var b := SourceLoop(Emit(Emit(st, [Connect]), Authorize(env.auth).1), sources, target, startDate, env);
             b.1.Some? || !Poll(b.0, env.stopAt).running
    ensures var b := SourceLoop(Emit(Emit(st, [Connect]), Authorize(env.auth).1), sources, target, startDate, env);
            var r := Run(st, sources, target, startDate, env);
            r.0.ledger == b.0.ledger && r.0.trace == b.0.trace + [Disconnect]
  {
  }

  /** The source loop only enumerates sources and handles their items. */
  lemma {:induction false} SourceLoopEffects(st: State, sources: seq<int>, target: int, startDate: Option<DateTime>,
                                             history: (int, StartPoint) -> seq<Item>, raises: (int, StartPoint) -> bool,
                                             stopAt: nat)
    ensures var r := RunSources(st, sources, target, startDate, history, raises, stopAt).0;
            forall i :: |st.trace| <= i < |r.trace| ==> r.trace[i].Enumerate? || BackfillProperties.ItemEffect(r.trace[i])
    decreases |sources|
  {
    var r := RunSources(st, sources, target, startDate, history, raises, stopAt).0;
    var checked := Poll(st, stopAt);
    if sources != [] && checked.running {
      var next := MigrateSource(checked, sources[0], target, startDate, history, stopAt);
      BackfillProperties.MigrateSourceEnumeratesOnce(checked, sources[0], target, startDate, history, stopAt);
      if next.running && raises(sources[0], StartPointFor(checked.ledger, sources[0], startDate)) {
        assert r == next;
      } else {
        SourceLoopEffects(next, sources[1..], target, startDate, history, raises, stopAt);
        assert r == RunSources(next, sources[1..], target, startDate, history, raises, stopAt).0;
      }
      assert next.trace <= r.trace;
      forall i | |st.trace| <= i < |r.trace|
        ensures r.trace[i].Enumerate? || BackfillProperties.ItemEffect(r.trace[i])
      {
        if i < |next.trace| {
          assert r.trace[i] == next.trace[i];
        }
      }
    } else {
      assert r.trace == st.trace || r.trace == checked.trace;
    }
  }

  /** The handshake never subscribes to new posts. */
  lemma HandshakeNeverSubscribes(script: AuthScript)
    ensures forall i :: 0 <= i < |Authorize(script).1| ==> !Authorize(script).1[i].Subscribe?
  {
    var calls := Authorize(script).1;
    forall i | 0 <= i < |calls| ensures !calls[i].Subscribe? {
      assert ProtocolStep(i, calls[i]);
    }
  }

  /** A run that does not reach live tail subscribes nowhere. */
  lemma NoSubscribeWithoutLiveTail(st: State, sources: seq<int>, target: int, startDate: Option<DateTime>, env: Env)
    requires var b := SourceLoop(Emit(Emit(st, [Connect]), Authorize(env.auth).1), sources, target, startDate, env);
             !(env.connects && Authorize(env.auth).0.Authorized? && b.1.None? && Poll(b.0, env.stopAt).running)
    ensures var r := Run(st, sources, target, startDate, env);
            forall i :: |st.trace| <= i < |r.0.trace| ==> !r.0.trace[i].Subscribe?
  {
    var calls := Authorize(env.auth).1;
    var a := Emit(Emit(st, [Connect]), calls);
    var r := Run(st, sources, target, startDate, env).0;
    if !env.connects {
      assert r.trace == st.trace + [Connect];
    } else {
      HandshakeNeverSubscribes(env.auth);
      var rest: seq<Event>;
      if Authorize(env.auth).0.Aborted? {
        rest := [Disconnect];
      } else {
        var b := SourceLoop(a, sources, target, startDate, env).0;
        BackfillSubscribesNowhere(a, sources, target, startDate, env);
        rest := b.trace[|a.trace|..] + [Disconnect];
        assert r.trace == b.trace + [Disconnect];
        forall i | 0 <= i < |rest| ensures !rest[i].Subscribe? {
          if i < |b.trace| - |a.trace| {
            assert rest[i] == b.trace[|a.trace|..][i];
          }
        }
      }
      assert r.trace == st.trace + [Connect] + calls + rest;
      SubscribeFreeSplice(st.trace, calls, rest);
    }
  }

  /** What the source loop adds to the trace holds no subscription. */
  lemma BackfillSubscribesNowhere(a: State, sources: seq<int>, target: int, startDate: Option<DateTime>, env: Env)
    ensures var b := SourceLoop(a, sources, target, startDate, env).0;
            forall i :: 0 <= i < |b.trace[|a.trace|..]| ==> !b.trace[|a.trace|..][i].Subscribe?
  {
    SourceLoopEffects(a, sources, target, startDate, env.history, env.raises, env.stopAt);
    var b := RunSources(a, sources, target, startDate, env.history, env.raises, env.stopAt).0;
    assert var r := RunSources(a, sources, target, startDate, env.history, env.raises, env.stopAt).0;
           forall i :: |a.trace| <= i < |r.trace| ==> r.trace[i].Enumerate? || BackfillProperties.ItemEffect(r.trace[i]);
    forall i | 0 <= i < |b.trace[|a.trace|..]| ensures !b.trace[|a.trace|..][i].Subscribe? {
      assert b.trace[|a.trace|..][i] == b.trace[|a.trace| + i];
    }
  }

  lemma SubscribeFreeSplice(t0: seq<Event>, calls: seq<Event>, rest: seq<Event>)
    requires forall i :: 0 <= i < |calls| ==> !calls[i].Subscribe?
    requires forall i :: 0 <= i < |rest| ==> !rest[i].Subscribe?
    ensures var t := t0 + [Connect] + calls + rest;
            forall i :: |t0| <= i < |t| ==> !t[i].Subscribe?
  {
    var t := t0 + [Connect] + calls + rest;
    forall i | |t0| <= i < |t| ensures !t[i].Subscribe? {
      if |t0| < i <= |t0| + |calls| {
        assert t[i] == calls[i - |t0| - 1];
      } else if i > |t0| + |calls| {
        assert t[i] == rest[i - |t0| - 1 - |calls|];
      }
    }
  }

  /** Live tail (`_monitor_new_posts`) runs exactly when the session is
      authorized, no enumeration raised and the read of the flag after the
      source loop gives `True`: only then is the handler subscribed. After
      an authorized handshake the ledger is then what the handler made of
      backfill's ledger, and otherwise backfill's ledger is final. */
  lemma LiveTailOnlyWhileRunning(st: State, sources: seq<int>, target: int, startDate: Option<DateTime>, env: Env)
    ensures var b := SourceLoop(Emit(Emit(st, [Connect]), Authorize(env.auth).1), sources, target, startDate, env);
            var r := Run(st, sources, target, startDate, env);
            Subscribe(sources) in r.0.trace[|st.trace|..] <==>
              env.connects && Authorize(env.auth).0.Authorized? && b.1.None? && Poll(b.0, env.stopAt).running
    ensures var b := SourceLoop(Emit(Emit(st, [Connect]), Authorize(env.auth).1), sources, target, startDate, env);
            var checked := Poll(b.0, env.stopAt);
            var r := Run(st, sources, target, startDate, env);
            env.connects && Authorize(env.auth).0.Authorized? ==>
              r.0.ledger == if b.1.None? && checked.running
                            then HandleAll(Emit(checked, [Subscribe(sources)]), target, env.notifications, env.stopAt).ledger
                            else b.0.ledger
  {
    var b := SourceLoop(Emit(Emit(st, [Connect]), Authorize(env.auth).1), sources, target, startDate, env);
    var r := Run(st, sources, target, startDate, env).0;
    var tail := r.trace[|st.trace|..];
    if env.connects && Authorize(env.auth).0.Authorized? && b.1.None? && Poll(b.0, env.stopAt).running {
      var checked := Poll(b.0, env.stopAt);
      var tailed := MonitorNewPosts(checked, target, sources, env);
      assert r == Emit(tailed, [Disconnect]);
      assert r.trace[|checked.trace|] == Subscribe(sources);
      assert tail[|checked.trace| - |st.trace|] == Subscribe(sources);
    } else {
      NoSubscribeWithoutLiveTail(st, sources, target, startDate, env);
      forall j | 0 <= j < |tail| ensures tail[j] != Subscribe(sources) {
        assert tail[j] == r.trace[|st.trace| + j];
      }
    }
  }

  /** The transport of the worked runs: the first source holds 5, 6 and the
      service message 7; the second holds 1; each enumerated from the
      beginning. */
  function Sources(s1: int, s2: int, second: ForwardResult): (int, StartPoint) -> seq<Item> {
    (s: int, p: StartPoint) =>
      if s == s1 && p == AfterId(0) then [Item(5, false, Forwarded), Item(6, false, second), Item(7, true, Forwarded)]
      else if s == s2 && p == AfterId(0) then [Item(1, false, Forwarded)]
      else []
  }

  /** No enumeration of the worked runs raises. */
  predicate NeverRaises(s: int, p: StartPoint) {
    false
  }

  /** Connected, already authorized, no enumeration raises, no
      notification, a truthy handler handle, and the stop pressed just after
      live tail has begun. */
  function ScenarioEnv(s1: int, s2: int, second: ForwardResult): Env {
    Env(true, AuthScript(true, None, false, None, SignedIn, None, false), Sources(s1, s2, second),
        NeverRaises, [], true, 7)
  }

  /** The run over two distinct sources (100 and 200, say) into a target
      (300, say) from an empty ledger, already authorized and stopped once
      live tail has begun. When every forward succeeds, 5 and 6 are forwarded
      and recorded, 7 is recorded without forwarding, then 1 from the second
      source, then live tail. When forwarding 6 hits a flood wait of 30, the
      loop waits and moves on to 7: item 6 is attempted once and never again,
      and the ledger ends the same. */
  lemma ScenarioTwoSources(st: State, s1: int, s2: int, t: int, second: ForwardResult)
    requires st.ledger == map[] && st.trace == [] && s1 != s2
    requires second == Forwarded || second == FloodWait(30)
    ensures var r := Start(st, [s1, s2], t, None, ScenarioEnv(s1, s2, second));
            && r.1 == Pass
            && r.0.ledger == map[Str(s1) := 7, Str(s2) := 1]
            && r.0.trace == [Connect, CheckAuthorized, Enumerate(s1, AfterId(0))]
                            + ItemEvents(Str(s1), t, Item(5, false, Forwarded))
                            + ItemEvents(Str(s1), t, Item(6, false, second))
                            + ItemEvents(Str(s1), t, Item(7, true, Forwarded))
                            + [Enumerate(s2, AfterId(0))]
                            + ItemEvents(Str(s2), t, Item(1, false, Forwarded))
                            + [Subscribe([s1, s2]), Unsubscribe, Disconnect]
  {
    var env := ScenarioEnv(s1, s2, second);
    ScenarioBackfill(s1, s2, t, second);
    assert State(st.ledger, true, 0, st.trace + [Connect, CheckAuthorized])
        == State(map[], true, 0, [Connect, CheckAuthorized]);
    assert env.history == Sources(s1, s2, second) && env.raises == NeverRaises && env.stopAt == 7;
    QuietRun(st, [s1, s2], t, None, env);
  }

  /** An authorized run whose flag survives backfill and whose live tail sees
      no notification before the stop: its effects are those of backfill,
      then subscribe, unsubscribe and disconnect. */
  lemma QuietRun(st: State, sources: seq<int>, target: int, startDate: Option<DateTime>, env: Env)
    requires sources != [] && env.connects && env.auth.alreadyAuthorized
    requires env.notifications == [] && env.handlerHandle
    requires var a := State(st.ledger, true, 0, st.trace + [Connect, CheckAuthorized]);
             var b := SourceLoop(a, sources, target, startDate, env);
             b.1.None? && b.0.running && b.0.polls + 1 == env.stopAt
    ensures var a := State(st.ledger, true, 0, st.trace + [Connect, CheckAuthorized]);
            var b := SourceLoop(a, sources, target, startDate, env);
            var r := Start(st, sources, target, startDate, env);
            && r.1 == Pass && r.0.ledger == b.0.ledger
            && r.0.trace == b.0.trace + [Subscribe(sources), Unsubscribe, Disconnect]
  {
    var s0 := st.(running := true, polls := 0);
    var a := State(st.ledger, true, 0, st.trace + [Connect, CheckAuthorized]);
    assert Authorize(env.auth) == (Authorized, [CheckAuthorized]);
    assert Emit(Emit(s0, [Connect]), Authorize(env.auth).1) == a;
    var b := SourceLoop(a, sources, target, startDate, env).0;
    var checked := Poll(b, env.stopAt);
    QuietLiveTail(checked, target, sources, env);
  }

  /** Live tail with no notification, stopped at its first check: subscribe,
      then unsubscribe; the ledger is untouched. */
  lemma QuietLiveTail(c: State, target: int, sources: seq<int>, env: Env)
    requires env.notifications == [] && env.handlerHandle && c.polls == env.stopAt
    ensures var r := MonitorNewPosts(c, target, sources, env);
            r.ledger == c.ledger && r.trace == c.trace + [Subscribe(sources), Unsubscribe]
  {
    var sub := Emit(c, [Subscribe(sources)]);
    assert HandleAll(sub, target, [], env.stopAt) == sub;
    assert WaitForStop(sub, env.stopAt) == Poll(sub, env.stopAt);
  }

  /** The backfill part of the worked runs: each source is replayed to the
      end, which takes six checks of the flag. */
  lemma ScenarioBackfill(s1: int, s2: int, t: int, second: ForwardResult)
    requires s1 != s2
    requires second == Forwarded || second == FloodWait(30)
    ensures var a := State(map[], true, 0, [Connect, CheckAuthorized]);
            var b := RunSources(a, [s1, s2], t, None, Sources(s1, s2, second), NeverRaises, 7);
            && b.1.None? && b.0.running && b.0.polls == 6
            && b.0.ledger == map[Str(s1) := 7, Str(s2) := 1]
            && b.0.trace == [Connect, CheckAuthorized, Enumerate(s1, AfterId(0))]
                          + ItemEvents(Str(s1), t, Item(5, false, Forwarded))
                          + ItemEvents(Str(s1), t, Item(6, false, second))
                          + ItemEvents(Str(s1), t, Item(7, true, Forwarded))
                          + [Enumerate(s2, AfterId(0))]
                          + ItemEvents(Str(s2), t, Item(1, false, Forwarded))
  {
    var h := Sources(s1, s2, second);
    var a := State(map[], true, 0, [Connect, CheckAuthorized]);
    ScenarioFirstSource(s1, s2, t, second);
    var m1 := MigrateSource(Poll(a, 7), s1, t, None, h, 7);
    ScenarioSecondSource(m1, s1, s2, t, second);
    var m2 := MigrateSource(Poll(m1, 7), s2, t, None, h, 7);
    assert RunSources(m2, [], t, None, h, NeverRaises, 7) == (m2, None);
    assert [s1, s2][1..] == [s2] && [s2][1..] == [];
    assert RunSources(m1, [s2], t, None, h, NeverRaises, 7) == (m2, None);
  }

  /** The first source: three items, all handled. */
  lemma ScenarioFirstSource(s1: int, s2: int, t: int, second: ForwardResult)
    requires second == Forwarded || second == FloodWait(30)
    ensures var a := State(map[], true, 0, [Connect, CheckAuthorized]);
            var m1 := MigrateSource(Poll(a, 7), s1, t, None, Sources(s1, s2, second), 7);
            && m1.running && m1.polls == 4
            && m1.ledger == map[Str(s1) := 7]
            && m1.trace == [Connect, CheckAuthorized, Enumerate(s1, AfterId(0))]
                           + ItemEvents(Str(s1), t, Item(5, false, Forwarded))
                           + ItemEvents(Str(s1), t, Item(6, false, second))
                           + ItemEvents(Str(s1), t, Item(7, true, Forwarded))
  {
    var h := Sources(s1, s2, second);
    var a := State(map[], true, 0, [Connect, CheckAuthorized]);
    var k1 := Str(s1);
    var items1 := [Item(5, false, Forwarded), Item(6, false, second), Item(7, true, Forwarded)];
    assert h(s1, AfterId(0)) == items1;
    var p1 := Poll(a, 7);
    var s := Emit(p1, [Enumerate(s1, AfterId(0))]);
    assert MigrateSource(p1, s1, t, None, h, 7) == MigrateItems(s, k1, t, items1, 7);
    ThreeHandled(s, k1, t, items1[0], items1[1], items1[2]);
  }

  /** Three items handled from an empty ledger, with checks to spare. */
  lemma ThreeHandled(s: State, key: string, target: int, x: Item, y: Item, z: Item)
    requires s.running && s.polls == 1 && s.ledger == map[] && Recordable(z)
    ensures MigrateItems(s, key, target, [x, y, z], 7)
         == State(map[key := z.id], true, 4, s.trace + ItemEvents(key, target, x)
                                                   + ItemEvents(key, target, y) + ItemEvents(key, target, z))
  {
    var items := [x, y, z];
    BackfillProperties.BackfillOutcome(s, key, target, items, 7);
    assert BackfillProperties.Processed(s, 3, 7) == 3;
    assert items[..3] == items;
    LastOfThree(x, y, z);
    EventsOfThree(key, target, x, y, z);
  }

  lemma LastOfThree(x: Item, y: Item, z: Item)
    requires Recordable(z)
    ensures BackfillProperties.LastRecordedAt([x, y, z]) == Some(2)
  {
  }

  lemma EventsOfThree(key: string, target: int, x: Item, y: Item, z: Item)
    ensures BackfillProperties.AllEvents(key, target, [x, y, z])
         == ItemEvents(key, target, x) + ItemEvents(key, target, y) + ItemEvents(key, target, z)
  {
    BackfillProperties.AllEventsCons(key, target, z, []);
    BackfillProperties.AllEventsCons(key, target, y, [z]);
    BackfillProperties.AllEventsCons(key, target, x, [y, z]);
    assert [x, y, z] == [x] + [y, z] && [y, z] == [y] + [z] && [z] == [z] + [];
  }

  /** The second source, after the first: one item, handled. */
  lemma ScenarioSecondSource(m1: State, s1: int, s2: int, t: int, second: ForwardResult)
    requires s1 != s2
    requires m1.running && m1.polls == 4 && m1.ledger == map[Str(s1) := 7]
    ensures var m2 := MigrateSource(Poll(m1, 7), s2, t, None, Sources(s1, s2, second), 7);
            && m2.running && m2.polls == 6
            && m2.ledger == map[Str(s1) := 7, Str(s2) := 1]
            && m2.trace == m1.trace + [Enumerate(s2, AfterId(0))] + ItemEvents(Str(s2), t, Item(1, false, Forwarded))
  {
    var h := Sources(s1, s2, second);
    var k2 := Str(s2);
    StrInjective(s1, s2);
    var items2 := [Item(1, false, Forwarded)];
    assert StartPointFor(m1.ledger, s2, None) == AfterId(0);
    assert h(s2, AfterId(0)) == items2;
    var p2 := Poll(m1, 7);
    var s := Emit(p2, [Enumerate(s2, AfterId(0))]);
    assert MigrateSource(p2, s2, t, None, h, 7) == MigrateItems(s, k2, t, items2, 7);
    BackfillProperties.BackfillOutcome(s, k2, t, items2, 7);
    assert BackfillProperties.Processed(s, 1, 7) == 1;
    assert items2[..1] == items2;
    assert BackfillProperties.LastRecordedAt(items2) == Some(0);
    BackfillProperties.AllEventsCons(k2, t, items2[0], []);
  }
}
