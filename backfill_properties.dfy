/**
 * What the backfill loop of `_migrate_source` guarantees: a closed form of
 * its effect on the ledger and the trace, the resume point it leaves, that
 * the ledger value never decreases while a source is replayed oldest first,
 * that each non-service item is attempted exactly once, and what a resumed
 * run enumerates again.
 */
module BackfillProperties {
  import opened Wrappers
  import opened Numerals
  import opened Transport
  import opened Migration

  /** Ids strictly increase along the sequence (a source replayed oldest first). */
  predicate Increasing(xs: seq<Item>) {
    forall i, j :: 0 <= i < j < |xs| ==> xs[i].id < xs[j].id
  }

  /** How many items the backfill loop handles, from state `st`, before a flag
      check reads `False` (all of them when none does). */
  function Processed(st: State, len: nat, stopAt: nat): (n: nat)
    ensures n <= len
    ensures st.running && st.polls + len <= stopAt ==> n == len
  {
    if !st.running || st.polls >= stopAt then 0
    else if len <= stopAt - st.polls then len
    else stopAt - st.polls
  }

  /** Position of the last item that backfill writes to the ledger. */
  function LastRecordedAt(xs: seq<Item>): (r: Option<nat>)
    ensures r.None? <==> forall i :: 0 <= i < |xs| ==> !Recordable(xs[i])
    ensures r.Some? ==> r.value < |xs| && Recordable(xs[r.value])
    ensures r.Some? ==> forall k :: r.value < k < |xs| ==> !Recordable(xs[k])
  {
    if xs == [] then None
    else if Recordable(xs[|xs| - 1]) then Some(|xs| - 1)
    else
      var r := LastRecordedAt(xs[..|xs| - 1]);
      assert forall i :: 0 <= i < |xs| - 1 ==> xs[..|xs| - 1][i] == xs[i];
      r
  }

  /** The ledger once the items `xs` have been handled: the key holds the id
      of the last recordable one; with none, nothing changes. */
  function AfterHandling(ledger: Ledger, key: string, xs: seq<Item>): Ledger {
    match LastRecordedAt(xs)
    case None => ledger
    case Some(j) => ledger[key := xs[j].id]
  }

  /** The effects of handling the items `xs`, one after another. */
  function AllEvents(key: string, target: int, xs: seq<Item>): seq<Event>
    decreases |xs|
  {
    if xs == [] then [] else ItemEvents(key, target, xs[0]) + AllEvents(key, target, xs[1..])
  }

  lemma {:induction false} LastRecordedAtCons(x: Item, ys: seq<Item>)
    ensures LastRecordedAt([x] + ys) ==
      match LastRecordedAt(ys)
      case Some(j) => Some(j + 1)
      case None => if Recordable(x) then Some(0) else None
    decreases |ys|
  {
    var xs := [x] + ys;
    if ys == [] {
      assert xs == [x];
      assert xs[..0] == [];
    } else if Recordable(ys[|ys| - 1]) {
      assert xs[|xs| - 1] == ys[|ys| - 1];
    } else {
      assert xs[|xs| - 1] == ys[|ys| - 1];
      assert xs[..|xs| - 1] == [x] + ys[..|ys| - 1];
      LastRecordedAtCons(x, ys[..|ys| - 1]);
    }
  }

  lemma AfterHandlingCons(ledger: Ledger, key: string, x: Item, ys: seq<Item>)
    ensures AfterHandling(ledger, key, [x] + ys)
         == AfterHandling(if Recordable(x) then ledger[key := x.id] else ledger, key, ys)
  {
    LastRecordedAtCons(x, ys);
    var xs := [x] + ys;
    match LastRecordedAt(ys)
    case Some(j) =>
      assert xs[j + 1] == ys[j];
    case None =>
  }

  lemma AllEventsCons(key: string, target: int, x: Item, ys: seq<Item>)
    ensures AllEvents(key, target, [x] + ys) == ItemEvents(key, target, x) + AllEvents(key, target, ys)
  {
    assert ([x] + ys)[1..] == ys;
  }

  /** Closed form of the backfill loop: of the items, the first `n` are
      handled, where `n` is how many flag checks read `True`; the ledger then
      holds the last recordable id among them under the source's key and no
      other key changes; the trace gains exactly their effects, in order; the
      flag is still `True` only if no check read `False`. */
  function Backfilled(st: State, key: string, target: int, items: seq<Item>, stopAt: nat): State {
    var n := Processed(st, |items|, stopAt);
    State(AfterHandling(st.ledger, key, items[..n]),
          st.running && (items == [] || st.polls + |items| <= stopAt),
          st.polls + (if n < |items| then n + 1 else n),
          st.trace + AllEvents(key, target, items[..n]))
  }

  /** A check that reads `False` is where the closed form stops. */
  lemma BackfilledStopped(st: State, key: string, target: int, items: seq<Item>, stopAt: nat)
    requires items != [] && !Poll(st, stopAt).running
    ensures Backfilled(st, key, target, items, stopAt) == Poll(st, stopAt)
  {
    assert Processed(st, |items|, stopAt) == 0;
    assert items[..0] == [];
  }

  /** One passed check leaves one check fewer for the rest of the items. */
  lemma ProcessedStep(st: State, next: State, len: nat, stopAt: nat)
    requires len > 0 && Poll(st, stopAt).running
    requires next.running && next.polls == st.polls + 1
    ensures Processed(next, len - 1, stopAt) == Processed(st, len, stopAt) - 1
  {
  }

  /** One handled item moves the closed form one item along. */
  lemma BackfilledStep(st: State, key: string, target: int, items: seq<Item>, stopAt: nat)
    requires items != [] && Poll(st, stopAt).running
    ensures var next := HandleItem(Poll(st, stopAt), key, target, items[0]);
            Backfilled(next, key, target, items[1..], stopAt) == Backfilled(st, key, target, items, stopAt)
  {
    var next := HandleItem(Poll(st, stopAt), key, target, items[0]);
    var n := Processed(st, |items|, stopAt);
    ProcessedStep(st, next, |items|, stopAt);
    var ys := items[1..][..n - 1];
    assert items[..n] == [items[0]] + ys;
    AfterHandlingCons(st.ledger, key, items[0], ys);
    AllEventsCons(key, target, items[0], ys);
    var l := Backfilled(next, key, target, items[1..], stopAt);
    var r := Backfilled(st, key, target, items, stopAt);
    assert l.ledger == r.ledger;
    assert l.trace == r.trace;
    assert l.running == r.running && l.polls == r.polls;
  }

  /** The backfill loop computes its closed form. */
  lemma {:induction false} BackfillOutcome(st: State, key: string, target: int, items: seq<Item>, stopAt: nat)
    ensures MigrateItems(st, key, target, items, stopAt) == Backfilled(st, key, target, items, stopAt)
    decreases |items|
  {
    if items == [] {
      assert items[..0] == [];
    } else {
      var checked := Poll(st, stopAt);
      if checked.running {
        var next := HandleItem(checked, key, target, items[0]);
        BackfillOutcome(next, key, target, items[1..], stopAt);
        BackfilledStep(st, key, target, items, stopAt);
      } else {
        BackfilledStopped(st, key, target, items, stopAt);
      }
    }
  }

  /** At exhaustion (no stop while the source was replayed) the source's
      ledger value is the largest id among the items that were service,
      forwarded, or failed with an error other than a flood wait. */
  lemma ResumePointAtExhaustion(st: State, key: string, target: int, items: seq<Item>, stopAt: nat)
    requires st.running && st.polls + |items| <= stopAt
    requires Increasing(items)
    requires exists i :: 0 <= i < |items| && Recordable(items[i])
    ensures var r := MigrateItems(st, key, target, items, stopAt);
            && key in r.ledger
            && (forall i :: 0 <= i < |items| && Recordable(items[i]) ==> items[i].id <= r.ledger[key])
            && (exists i :: 0 <= i < |items| && Recordable(items[i]) && items[i].id == r.ledger[key])
  {
    BackfillOutcome(st, key, target, items, stopAt);
    assert items[..|items|] == items;
    var j := LastRecordedAt(items).value;
    assert Recordable(items[j]);
  }

  /** Handling a longer prefix of an increasing sequence of ids above the
      recorded one never leaves a smaller value under the key. */
  lemma AfterHandlingMonotone(ledger: Ledger, key: string, xs: seq<Item>, a: nat, b: nat)
    requires a <= b <= |xs|
    requires Increasing(xs)
    requires forall k :: 0 <= k < |xs| ==> LastId(ledger, key) < xs[k].id
    ensures LastId(AfterHandling(ledger, key, xs[..a]), key) <= LastId(AfterHandling(ledger, key, xs[..b]), key)
  {
    var xa := xs[..a];
    var xb := xs[..b];
    assert forall k :: 0 <= k < a ==> xa[k] == xb[k];
    if LastRecordedAt(xa).Some? {
      var p := LastRecordedAt(xa).value;
      assert Recordable(xb[p]);
      var q := LastRecordedAt(xb).value;
      assert p <= q;
      assert xa[p] == xs[p] && xb[q] == xs[q];
    } else if LastRecordedAt(xb).Some? {
      var q := LastRecordedAt(xb).value;
      assert xb[q] == xs[q];
    }
  }

  /** The source's ledger value never decreases while its items are replayed
      oldest first after it: it is at least as large after any longer prefix
      of the enumeration, stopped or not, as after a shorter one. */
  lemma BackfillMonotone(st: State, key: string, target: int, items: seq<Item>, stopAt: nat, i: nat, j: nat)
    requires i <= j <= |items|
    requires Increasing(items)
    requires forall k :: 0 <= k < |items| ==> LastId(st.ledger, key) < items[k].id
    ensures LastId(MigrateItems(st, key, target, items[..i], stopAt).ledger, key)
         <= LastId(MigrateItems(st, key, target, items[..j], stopAt).ledger, key)
  {
    BackfillOutcome(st, key, target, items[..i], stopAt);
    BackfillOutcome(st, key, target, items[..j], stopAt);
    var ni := Processed(st, i, stopAt);
    var nj := Processed(st, j, stopAt);
    assert ni <= nj;
    assert items[..i][..ni] == items[..ni];
    assert items[..j][..nj] == items[..nj];
    AfterHandlingMonotone(st.ledger, key, items, ni, nj);
  }

  /** Ids of the forwarding attempts in a trace, in order. */
  function ForwardedIds(events: seq<Event>): seq<int>
    decreases |events|
  {
    if events == [] then []
    else (if events[0].Forward? then [events[0].id] else []) + ForwardedIds(events[1..])
  }

  /** Ids written to the ledger in a trace, in order. */
  function RecordedIds(events: seq<Event>): seq<int>
    decreases |events|
  {
    if events == [] then []
    else (if events[0].Recorded? then [events[0].id] else []) + RecordedIds(events[1..])
  }

  lemma {:induction false} ForwardedIdsOfConcat(a: seq<Event>, b: seq<Event>)
    ensures ForwardedIds(a + b) == ForwardedIds(a) + ForwardedIds(b)
    decreases |a|
  {
    if a == [] {
      assert a + b == b;
    } else {
      var head := if a[0].Forward? then [a[0].id] else [];
      calc {
        ForwardedIds(a + b);
      == { assert (a + b)[0] == a[0]; assert (a + b)[1..] == a[1..] + b; }
        head + ForwardedIds(a[1..] + b);
      == { ForwardedIdsOfConcat(a[1..], b); }
        head + (ForwardedIds(a[1..]) + ForwardedIds(b));
      }
    }
  }

  lemma {:induction false} RecordedIdsOfConcat(a: seq<Event>, b: seq<Event>)
    ensures RecordedIds(a + b) == RecordedIds(a) + RecordedIds(b)
    decreases |a|
  {
    if a == [] {
      assert a + b == b;
    } else {
      var head := if a[0].Recorded? then [a[0].id] else [];
      calc {
        RecordedIds(a + b);
      == { assert (a + b)[0] == a[0]; assert (a + b)[1..] == a[1..] + b; }
        head + RecordedIds(a[1..] + b);
      == { RecordedIdsOfConcat(a[1..], b); }
        head + (RecordedIds(a[1..]) + RecordedIds(b));
      }
    }
  }

  lemma IdsOfConcat(a: seq<Event>, b: seq<Event>)
    ensures ForwardedIds(a + b) == ForwardedIds(a) + ForwardedIds(b)
    ensures RecordedIds(a + b) == RecordedIds(a) + RecordedIds(b)
  {
    ForwardedIdsOfConcat(a, b);
    RecordedIdsOfConcat(a, b);
  }

  /** The sources enumerated in a trace, in order. */
  function EnumeratedSources(events: seq<Event>): seq<int>
    decreases |events|
  {
    if events == [] then []
    else (if events[0].Enumerate? then [events[0].source] else []) + EnumeratedSources(events[1..])
  }

  lemma {:induction false} EnumeratedSourcesOfConcat(a: seq<Event>, b: seq<Event>)
    ensures EnumeratedSources(a + b) == EnumeratedSources(a) + EnumeratedSources(b)
    decreases |a|
  {
    if a == [] {
      assert a + b == b;
    } else {
      var head := if a[0].Enumerate? then [a[0].source] else [];
      calc {
        EnumeratedSources(a + b);
      == { assert (a + b)[0] == a[0]; assert (a + b)[1..] == a[1..] + b; }
        head + EnumeratedSources(a[1..] + b);
      == { EnumeratedSourcesOfConcat(a[1..], b); }
        head + (EnumeratedSources(a[1..]) + EnumeratedSources(b));
      }
    }
  }

  lemma {:induction false} NoEnumerateEnumeratesNone(events: seq<Event>)
    requires forall i :: 0 <= i < |events| ==> !events[i].Enumerate?
    ensures EnumeratedSources(events) == []
    decreases |events|
  {
    if events != [] {
      NoEnumerateEnumeratesNone(events[1..]);
    }
  }

  /** What handling an item can do: forward it, write the ledger, pause. */
  predicate ItemEffect(e: Event) {
    e.Forward? || e.Recorded? || e.Sleep?
  }

  /** Handling items only forwards, writes the ledger and pauses: it never
      enumerates a source, subscribes or talks to the session. */
  lemma {:induction false} AllEventsAreItemEffects(key: string, target: int, xs: seq<Item>)
    ensures forall i :: 0 <= i < |AllEvents(key, target, xs)| ==> ItemEffect(AllEvents(key, target, xs)[i])
    decreases |xs|
  {
    if xs != [] {
      AllEventsAreItemEffects(key, target, xs[1..]);
      var e := ItemEvents(key, target, xs[0]);
      var rest := AllEvents(key, target, xs[1..]);
      var all: seq<Event> := e + rest;
      assert AllEvents(key, target, xs) == all;
      forall i | 0 <= i < |all| ensures ItemEffect(all[i]) {
        if i >= |e| {
          assert all[i] == rest[i - |e|];
        }
      }
    }
  }

  /** `_migrate_source` enumerates its source exactly once, first, from the
      start point the ledger or the start date gives, and nothing else is
      enumerated while its items are handled: every later effect is one of
      handling an item. */
  lemma MigrateSourceEnumeratesOnce(st: State, source: int, target: int, startDate: Option<DateTime>,
                                    history: (int, StartPoint) -> seq<Item>, stopAt: nat)
    ensures var r := MigrateSource(st, source, target, startDate, history, stopAt);
            && r.trace[|st.trace|] == Enumerate(source, StartPointFor(st.ledger, source, startDate))
            && (forall i :: |st.trace| < i < |r.trace| ==> !r.trace[i].Enumerate? && ItemEffect(r.trace[i]))
            && EnumeratedSources(r.trace[|st.trace|..]) == [source]
  {
    var start := StartPointFor(st.ledger, source, startDate);
    var asked := Emit(st, [Enumerate(source, start)]);
    var items := history(source, start);
    BackfillOutcome(asked, Str(source), target, items, stopAt);
    var n := Processed(asked, |items|, stopAt);
    var handled := AllEvents(Str(source), target, items[..n]);
    AllEventsAreItemEffects(Str(source), target, items[..n]);
    var r := MigrateSource(st, source, target, startDate, history, stopAt);
    assert r.trace == st.trace + [Enumerate(source, start)] + handled;
    EnumerateThenEffects(st.trace, Enumerate(source, start), handled, r.trace);
  }

  /** A trace that grows by one enumeration followed by item effects
      enumerates exactly that one source. */
  lemma EnumerateThenEffects(before: seq<Event>, e: Event, handled: seq<Event>, t: seq<Event>)
    requires e.Enumerate? && t == before + [e] + handled
    requires forall j :: 0 <= j < |handled| ==> ItemEffect(handled[j])
    ensures t[|before|] == e
    ensures forall i :: |before| < i < |t| ==> !t[i].Enumerate? && ItemEffect(t[i])
    ensures EnumeratedSources(t[|before|..]) == [e.source]
  {
    assert t[|before|..] == [e] + handled;
    forall i | |before| < i < |t| ensures !t[i].Enumerate? && ItemEffect(t[i]) {
      assert t[i] == handled[i - |before| - 1];
    }
    NoEnumerateEnumeratesNone(handled);
    EnumeratedSourcesOfConcat([e], handled);
    assert EnumeratedSources([e]) == [e.source] by {
      assert [e][1..] == [];
    }
  }

  /** Ids of the non-service items, in order. */
  function NonServiceIds(xs: seq<Item>): seq<int>
    decreases |xs|
  {
    if xs == [] then [] else (if xs[0].isService then [] else [xs[0].id]) + NonServiceIds(xs[1..])
  }

  /** Ids of the recordable items, in order. */
  function RecordableIds(xs: seq<Item>): seq<int>
    decreases |xs|
  {
    if xs == [] then [] else (if Recordable(xs[0]) then [xs[0].id] else []) + RecordableIds(xs[1..])
  }

  lemma IdsOfOne(ev: Event)
    ensures ForwardedIds([ev]) == if ev.Forward? then [ev.id] else []
    ensures RecordedIds([ev]) == if ev.Recorded? then [ev.id] else []
  {
    assert [ev][1..] == [];
  }

  lemma ItemIds(key: string, target: int, x: Item)
    ensures ForwardedIds(ItemEvents(key, target, x)) == if x.isService then [] else [x.id]
    ensures RecordedIds(ItemEvents(key, target, x)) == if Recordable(x) then [x.id] else []
  {
    var e := ItemEvents(key, target, x);
    if |e| == 1 {
      IdsOfOne(e[0]);
      assert e == [e[0]];
    } else if |e| == 2 {
      IdsOfOne(e[0]);
      IdsOfOne(e[1]);
      IdsOfConcat([e[0]], [e[1]]);
      assert e == [e[0]] + [e[1]];
    } else {
      IdsOfOne(e[0]);
      IdsOfOne(e[1]);
      IdsOfOne(e[2]);
      IdsOfConcat([e[0]], [e[1]]);
      IdsOfConcat([e[0]] + [e[1]], [e[2]]);
      assert e == [e[0]] + [e[1]] + [e[2]];
    }
  }

  /** Handling items attempts to forward each non-service item exactly once,
      in order (a flood wait is not retried; a service item is never
      forwarded), and writes the ledger once for each item that is service,
      forwarded, or failed without a flood wait. */
  lemma {:induction false} AttemptsAndWrites(key: string, target: int, xs: seq<Item>)
    ensures ForwardedIds(AllEvents(key, target, xs)) == NonServiceIds(xs)
    ensures RecordedIds(AllEvents(key, target, xs)) == RecordableIds(xs)
    decreases |xs|
  {
    if xs != [] {
      AttemptsAndWrites(key, target, xs[1..]);
      IdsOfConcat(ItemEvents(key, target, xs[0]), AllEvents(key, target, xs[1..]));
      ItemIds(key, target, xs[0]);
    }
  }

  /** What the transport yields for `offset_id = v` with `reverse=True`: the
      messages with a larger id, oldest first. */
  function After(h: seq<Item>, v: int): seq<Item>
    decreases |h|
  {
    if h == [] then [] else (if h[0].id > v then [h[0]] else []) + After(h[1..], v)
  }

  lemma {:induction false} AfterAllAbove(h: seq<Item>, v: int)
    requires forall i :: 0 <= i < |h| ==> h[i].id > v
    ensures After(h, v) == h
    decreases |h|
  {
    if h != [] {
      AfterAllAbove(h[1..], v);
      assert [h[0]] + h[1..] == h;
    }
  }

  /** Enumerating after the id of an element of an increasing history gives
      exactly the elements behind it. */
  lemma {:induction false} AfterElement(h: seq<Item>, q: nat)
    requires Increasing(h) && q < |h|
    ensures After(h, h[q].id) == h[q + 1..]
    decreases q
  {
    if q == 0 {
      AfterAllAbove(h[1..], h[0].id);
    } else {
      assert h[1..][q - 1] == h[q];
      AfterElement(h[1..], q - 1);
      assert h[1..][q..] == h[q + 1..];
    }
  }

  /** On an increasing history the enumeration after any id is a suffix. */
  lemma {:induction false} AfterIsSuffix(h: seq<Item>, v: int) returns (p: nat)
    requires Increasing(h)
    ensures p <= |h| && After(h, v) == h[p..]
    decreases |h|
  {
    if h == [] {
      p := 0;
    } else if h[0].id > v {
      AfterAllAbove(h, v);
      p := 0;
    } else {
      var q := AfterIsSuffix(h[1..], v);
      p := q + 1;
      assert h[1..][q..] == h[p..];
    }
  }

  /** Where a later run resumes a source: the index just behind the last item
      written to the ledger (0 when none was). */
  function ResumeIndex(xs: seq<Item>): (k: nat)
    ensures k <= |xs|
  {
    match LastRecordedAt(xs)
    case None => 0
    case Some(j) => j + 1
  }

  /** The ledger `_migrate_source` leaves in id mode: the closed form of the
      backfill loop over what the transport yields after the recorded id. */
  lemma MigrateSourceLedger(st: State, source: int, target: int,
                            history: (int, StartPoint) -> seq<Item>, stopAt: nat)
    ensures var items := history(source, AfterId(LastId(st.ledger, Str(source))));
            MigrateSource(st, source, target, None, history, stopAt).ledger
              == AfterHandling(st.ledger, Str(source), items[..Processed(st, |items|, stopAt)])
  {
    var key := Str(source);
    var start := AfterId(LastId(st.ledger, key));
    var asked := Emit(st, [Enumerate(source, start)]);
    BackfillOutcome(asked, key, target, history(source, start), stopAt);
  }

  /** Enumerating after the id that handling a prefix of a suffix of an
      increasing history leaves gives the items behind the last one recorded. */
  lemma ResumeOnSuffix(h: seq<Item>, p: nat, ledger: Ledger, key: string, n: nat)
    requires Increasing(h) && p <= |h| && n <= |h| - p
    requires After(h, LastId(ledger, key)) == h[p..]
    ensures var items := h[p..];
            After(h, LastId(AfterHandling(ledger, key, items[..n]), key)) == items[ResumeIndex(items[..n])..]
  {
    var xs := h[p..][..n];
    if LastRecordedAt(xs).None? {
      ResumeNoneRecorded(h, p, ledger, key, n);
    } else {
      ResumeBehindRecorded(h, p, ledger, key, n, LastRecordedAt(xs).value);
    }
  }

  lemma ResumeNoneRecorded(h: seq<Item>, p: nat, ledger: Ledger, key: string, n: nat)
    requires p <= |h| && n <= |h| - p
    requires After(h, LastId(ledger, key)) == h[p..]
    requires LastRecordedAt(h[p..][..n]).None?
    ensures var items := h[p..];
            After(h, LastId(AfterHandling(ledger, key, items[..n]), key)) == items[0..]
  {
    assert AfterHandling(ledger, key, h[p..][..n]) == ledger;
    assert h[p..][0..] == h[p..];
  }

  lemma ResumeBehindRecorded(h: seq<Item>, p: nat, ledger: Ledger, key: string, n: nat, j: nat)
    requires Increasing(h) && p <= |h| && n <= |h| - p
    requires LastRecordedAt(h[p..][..n]) == Some(j)
    ensures var items := h[p..];
            After(h, LastId(AfterHandling(ledger, key, items[..n]), key)) == items[j + 1..]
  {
    var items := h[p..];
    var xs := items[..n];
    var id := xs[j].id;
    assert LastId(AfterHandling(ledger, key, xs), key) == id by {
      assert AfterHandling(ledger, key, xs) == ledger[key := id];
    }
    assert xs[j] == h[p + j];
    AfterElementOfSuffix(h, p, j);
  }

  lemma AfterElementOfSuffix(h: seq<Item>, p: nat, j: nat)
    requires Increasing(h) && p + j < |h|
    ensures After(h, h[p + j].id) == h[p..][j + 1..]
  {
    AfterElement(h, p + j);
    SuffixOfSuffix(h, p, j + 1);
  }

  lemma SuffixOfSuffix<T>(h: seq<T>, p: nat, k: nat)
    requires p + k <= |h|
    ensures h[p + k..] == h[p..][k..]
  {
  }

  /** Resumability: with a transport that honours `offset_id` on a history
      replayed oldest first, a run interrupted anywhere in a source (or one
      that finished it) leaves the ledger so that the next run enumerates
      exactly the items behind the last one written to the ledger: none of
      the recorded items again, and every later one. */
  lemma ResumeAfterInterruption(st: State, source: int, target: int, h: seq<Item>,
                                history: (int, StartPoint) -> seq<Item>, stopAt: nat)
    requires Increasing(h)
    requires forall v :: history(source, AfterId(v)) == After(h, v)
    ensures var items := After(h, LastId(st.ledger, Str(source)));
            var n := Processed(st, |items|, stopAt);
            var r := MigrateSource(st, source, target, None, history, stopAt);
            history(source, StartPointFor(r.ledger, source, None)) == items[ResumeIndex(items[..n])..]
  {
    var key := Str(source);
    var items := After(h, LastId(st.ledger, key));
    var n := Processed(st, |items|, stopAt);
    MigrateSourceLedger(st, source, target, history, stopAt);
    var p := AfterIsSuffix(h, LastId(st.ledger, key));
    ResumeOnSuffix(h, p, st.ledger, key, n);
  }

  /** A consequence of not retrying after a flood wait: an item whose forward
      hit a flood wait, followed by any item written to the ledger, is never
      enumerated again, so no later run forwards it. */
  lemma FloodWaitedItemIsLost(st: State, source: int, target: int, h: seq<Item>,
                              history: (int, StartPoint) -> seq<Item>, stopAt: nat, i: nat, k: nat)
    requires Increasing(h)
    requires forall v :: history(source, AfterId(v)) == After(h, v)
    requires var items := After(h, LastId(st.ledger, Str(source)));
             && i < k < Processed(st, |items|, stopAt)
             && !items[i].isService && items[i].outcome.FloodWait?
             && Recordable(items[k])
    ensures var items := After(h, LastId(st.ledger, Str(source)));
            var r := MigrateSource(st, source, target, None, history, stopAt);
            items[i] !in history(source, StartPointFor(r.ledger, source, None))
  {
    var items := After(h, LastId(st.ledger, Str(source)));
    var n := Processed(st, |items|, stopAt);
    ResumeAfterInterruption(st, source, target, h, history, stopAt);
    var p := AfterIsSuffix(h, LastId(st.ledger, Str(source)));
    SuffixIncreasing(h, p);
    assert Recordable(items[..n][k]);
    var j := LastRecordedAt(items[..n]).value;
    assert k <= j;
    NotBehind(items, i, j);
  }

  lemma SuffixIncreasing(h: seq<Item>, p: nat)
    requires Increasing(h) && p <= |h|
    ensures Increasing(h[p..])
  {
    var items := h[p..];
    forall a, b | 0 <= a < b < |items| ensures items[a].id < items[b].id {
      assert items[a] == h[p + a] && items[b] == h[p + b];
    }
  }

  /** In an increasing list an item does not reappear behind itself. */
  lemma NotBehind(items: seq<Item>, i: nat, j: nat)
    requires Increasing(items) && i <= j < |items|
    ensures items[i] !in items[j + 1..]
  {
    var rest := items[j + 1..];
    forall x | 0 <= x < |rest| ensures rest[x] != items[i] {
      assert rest[x] == items[j + 1 + x];
    }
  }

  /** With a fixed start date the ledger is not consulted, so the source's
      value is overwritten even by an older id: after replaying a single
      recordable item older than the recorded one, the value goes down. */
  lemma DateModeCanLowerLedger(st: State, source: int, target: int, d: DateTime,
                               history: (int, StartPoint) -> seq<Item>, stopAt: nat)
    requires st.running && st.polls < stopAt
    requires |history(source, FromDate(d))| == 1 && Recordable(history(source, FromDate(d))[0])
    requires history(source, FromDate(d))[0].id < LastId(st.ledger, Str(source))
    ensures LastId(MigrateSource(st, source, target, Some(d), history, stopAt).ledger, Str(source))
          < LastId(st.ledger, Str(source))
  {
    var items := history(source, FromDate(d));
    var asked := Emit(st, [Enumerate(source, FromDate(d))]);
    BackfillOutcome(asked, Str(source), target, items, stopAt);
    assert items[..1] == items;
  }
}
