/**
 * Waiting for providers: a snapshot response races with pushed updates and a timeout. The wait
 * settles at most once, only with a snapshot that is complete, and, as long as the response
 * carries a request id, misses no update that is.
 */
module ProviderWait {
  import opened Wrappers
  import opened Sequences

  datatype Entry = Entry(provider: string, loading: bool)

  type Cwd = Option<string>

  datatype Update = Update(cwd: Cwd, entries: seq<Entry>, rest: string)

  datatype Snapshot = Snapshot(requestId: string, update: Update)

  datatype Failure = Unsupported | TimedOut(loading: seq<string>) | RequestFailed

  datatype Outcome = Pending | Resolved(snapshot: Snapshot) | Rejected(failure: Failure)

  /** The variables of the wait; `requestId` and `snapshotCwd` are known once the response is. */
  datatype Wait = Wait(
    outcome: Outcome,
    requestId: Option<string>,
    snapshotCwd: Cwd,
    pendingUpdates: map<Cwd, Update>,
    latestEntries: seq<Entry>)

  datatype Event = Pushed(update: Update) | Responded(snapshot: Snapshot) | ResponseFailed | TimeoutFired

  predicate Complete(entries: seq<Entry>) {
    forall i :: 0 <= i < |entries| ==> !entries[i].loading
  }

  function LoadingProviders(entries: seq<Entry>): seq<string> {
    if entries == [] then []
    else if entries[0].loading then [entries[0].provider] + LoadingProviders(entries[1..])
    else LoadingProviders(entries[1..])
  }

  function Start(supported: bool): Wait {
    Wait(if supported then Pending else Rejected(Unsupported), None, None, map[], [])
  }

  /** Only the first settlement counts; it also ends the subscription and the timer. */
  function Settle(w: Wait, outcome: Outcome): Wait {
    if w.outcome.Pending? then w.(outcome := outcome) else w
  }

  /** The empty request id counts as none. */
  predicate HasRequestId(w: Wait) { w.requestId.Some? && w.requestId.value != "" }

  function OnUpdate(w: Wait, u: Update): Wait {
    if !w.outcome.Pending? then w
    else if !HasRequestId(w) then w.(pendingUpdates := w.pendingUpdates[u.cwd := u])
    else if u.cwd != w.snapshotCwd then w
    else
      var noted := w.(latestEntries := u.entries);
      if Complete(u.entries) then Settle(noted, Resolved(Snapshot(w.requestId.value, u))) else noted
  }

  function OnResponse(w: Wait, s: Snapshot): Wait {
    var known := w.(requestId := Some(s.requestId), snapshotCwd := s.update.cwd, latestEntries := s.update.entries);
    if Complete(s.update.entries) then Settle(known, Resolved(s))
    else if s.update.cwd in w.pendingUpdates && Complete(w.pendingUpdates[s.update.cwd].entries) then
      Settle(known, Resolved(Snapshot(s.requestId, w.pendingUpdates[s.update.cwd])))
    else known
  }

  function OnTimeout(w: Wait): Wait {
    Settle(w, Rejected(TimedOut(LoadingProviders(w.latestEntries))))
  }

  function Step(w: Wait, e: Event): Wait {
    match e
    case Pushed(u) => OnUpdate(w, u)
    case Responded(s) => OnResponse(w, s)
    case ResponseFailed => Settle(w, Rejected(RequestFailed))
    case TimeoutFired => OnTimeout(w)
  }

  function Run(w: Wait, es: seq<Event>): Wait {
    if es == [] then w else Step(Run(w, es[..|es| - 1]), es[|es| - 1])
  }

  // ---------------------------------------------------------------------------
  // Settling
  // ---------------------------------------------------------------------------

  lemma {:induction false} RunAppend(w: Wait, a: seq<Event>, b: seq<Event>)
    ensures Run(w, a + b) == Run(Run(w, a), b)
  {
    if b == [] {
      assert a + b == a;
    } else {
      hide Step;
      assert (a + b)[..|a + b| - 1] == a + b[..|b| - 1];
      RunAppend(w, a, b[..|b| - 1]);
    }
  }

  /** Whatever comes after the first settlement changes nothing. */
  lemma {:induction false} SettlesOnce(w: Wait, es: seq<Event>)
    requires !w.outcome.Pending?
    ensures Run(w, es).outcome == w.outcome
  {
    if es != [] {
      SettlesOnce(w, es[..|es| - 1]);
    }
  }

  /** Settling ends the subscription: later updates are not even looked at. */
  lemma SettledIgnoresUpdates(w: Wait, u: Update)
    requires !w.outcome.Pending?
    ensures Step(w, Pushed(u)) == w
  {
  }

  predicate Updates(es: seq<Event>) {
    forall i :: 0 <= i < |es| ==> es[i].Pushed?
  }

  /** No response among them: updates, failures of the request, and the timeout. */
  predicate Responseless(es: seq<Event>) {
    forall i :: 0 <= i < |es| ==> !es[i].Responded?
  }

  predicate Ends(e: Event) { e.TimeoutFired? || e.ResponseFailed? }

  /** What the stored updates are: the last one for each directory. */
  function LastFor(es: seq<Event>, cwd: Cwd): Option<Update> {
    if es == [] then None
    else
      var last := es[|es| - 1];
      if last.Pushed? && last.update.cwd == cwd then Some(last.update) else LastFor(es[..|es| - 1], cwd)
  }

  /** The first complete update for a directory. */
  function FirstComplete(es: seq<Event>, cwd: Cwd): Option<Update> {
    if es == [] then None
    else
      var earlier, last := FirstComplete(es[..|es| - 1], cwd), es[|es| - 1];
      if earlier.Some? then earlier
      else if last.Pushed? && last.update.cwd == cwd && Complete(last.update.entries) then Some(last.update)
      else None
  }

  ghost predicate Stores(stored: map<Cwd, Update>, es: seq<Event>) {
    forall cwd :: LastFor(es, cwd) == if cwd in stored then Some(stored[cwd]) else None
  }

  /** Before the response nothing is resolved, and the last update for each directory is kept. */
  lemma {:induction false} BeforeResponse(es: seq<Event>)
    requires Responseless(es)
    ensures var w := Run(Start(true), es);
            && (w.outcome.Pending? <==> forall i :: 0 <= i < |es| ==> !Ends(es[i]))
            && !w.outcome.Resolved?
            && (w.outcome.Pending? ==> w.requestId.None? && Stores(w.pendingUpdates, es))
  {
    if es != [] {
      var before := es[..|es| - 1];
      BeforeResponse(before);
      assert forall i :: 0 <= i < |before| ==> es[i] == before[i];
    }
  }

  /** After it, the first complete update for its directory resolves the wait, unless the id is empty. */
  lemma {:induction false} AfterResponse(w: Wait, es: seq<Event>)
    requires Updates(es) && w.outcome.Pending? && w.requestId.Some?
    ensures var after := Run(w, es);
            && after.requestId == w.requestId && after.snapshotCwd == w.snapshotCwd
            && after.outcome == (if w.requestId.value == "" || FirstComplete(es, w.snapshotCwd).None? then Pending
                                 else Resolved(Snapshot(w.requestId.value, FirstComplete(es, w.snapshotCwd).value)))
  {
    if es != [] {
      AfterResponse(w, es[..|es| - 1]);
    }
  }

  /** What the wait should come to. */
  function Expected(before: seq<Event>, s: Snapshot, after: seq<Event>): Outcome {
    var stored, first := LastFor(before, s.update.cwd), FirstComplete(after, s.update.cwd);
    if Complete(s.update.entries) then Resolved(s)
    else if stored.Some? && Complete(stored.value.entries) then Resolved(Snapshot(s.requestId, stored.value))
    else if first.Some? then Resolved(Snapshot(s.requestId, first.value))
    else Pending
  }

  /**
   * Whatever updates come before and after the response: the wait resolves with the response if
   * it is complete, else with the last stored update for its directory if that is, else with the
   * first later one that is, and otherwise stays pending. With an empty request id the later
   * updates are lost.
   */
  lemma WhatItComesTo(before: seq<Event>, s: Snapshot, after: seq<Event>)
    requires Updates(before) && Updates(after)
    ensures Run(Start(true), before + [Responded(s)] + after).outcome
         == Expected(before, s, if s.requestId != "" then after else [])
  {
    var stored := Run(Start(true), before);
    var responded := OnResponse(stored, s);
    BeforeResponse(before);
    assert forall i :: 0 <= i < |before| ==> !Ends(before[i]);
    RunAppend(Start(true), before, [Responded(s)]);
    RunOne(stored, Responded(s));
    RunAppend(Start(true), before + [Responded(s)], after);
    if responded.outcome.Pending? {
      AfterResponse(responded, after);
    } else {
      SettlesOnce(responded, after);
    }
    hide Run, LastFor, FirstComplete;
    assert LastFor(before, s.update.cwd) ==
      if s.update.cwd in stored.pendingUpdates then Some(stored.pendingUpdates[s.update.cwd]) else None;
    NothingIsFirst(s.update.cwd);
  }

  lemma NothingIsFirst(cwd: Cwd)
    ensures FirstComplete([], cwd) == None
  {
  }

  lemma RunOne(w: Wait, e: Event)
    ensures Run(w, [e]) == Step(w, e)
  {
    assert [e][..0] == [];
    assert Run(w, []) == w;
  }

  /**
   * No lost wake-up: an undisturbed wait is still pending after its response exactly when the
   * response, the last update for its directory before it, and every one after it had a loading
   * entry; an empty request id is what makes it miss the later ones.
   */
  lemma NoLostWakeUp(before: seq<Event>, s: Snapshot, after: seq<Event>)
    requires Updates(before) && Updates(after)
    ensures var wait := Run(Start(true), before + [Responded(s)] + after);
            var stored := LastFor(before, s.update.cwd);
            wait.outcome.Pending? <==>
              && !Complete(s.update.entries)
              && (stored.None? || !Complete(stored.value.entries))
              && (s.requestId != "" ==>
                    forall i :: 0 <= i < |after| && after[i].update.cwd == s.update.cwd ==>
                      !Complete(after[i].update.entries))
  {
    WhatItComesTo(before, s, after);
    NoneIsComplete(after, s.update.cwd);
    NothingIsFirst(s.update.cwd);
    hide Run, LastFor, FirstComplete;
  }

  /** An incomplete response and then a complete update, which an empty request id hides from the wait. */
  lemma EmptyIdMissesUpdate(requestId: string, cwd: Cwd, provider: string, rest: string)
    ensures var loading := Update(cwd, [Entry(provider, true)], rest);
            var ready := Update(cwd, [Entry(provider, false)], rest);
            Run(Start(true), [Responded(Snapshot(requestId, loading)), Pushed(ready)]).outcome ==
            if requestId == "" then Pending else Resolved(Snapshot(requestId, ready))
  {
    var loading, ready := Update(cwd, [Entry(provider, true)], rest), Update(cwd, [Entry(provider, false)], rest);
    var s := Snapshot(requestId, loading);
    assert [Responded(s), Pushed(ready)] == [] + [Responded(s)] + [Pushed(ready)];
    WhatItComesTo([], s, [Pushed(ready)]);
    assert loading.entries[0].loading && !ready.entries[0].loading;
    assert [Pushed(ready)][..0] == [];
    assert FirstComplete([Pushed(ready)], cwd) == Some(ready);
    hide Run;
  }

  lemma {:induction false} NoneIsComplete(es: seq<Event>, cwd: Cwd)
    requires Updates(es)
    ensures FirstComplete(es, cwd).None? <==>
              forall i :: 0 <= i < |es| && es[i].update.cwd == cwd ==> !Complete(es[i].update.entries)
  {
    if es != [] {
      hide Complete;
      var before := es[..|es| - 1];
      NoneIsComplete(before, cwd);
      assert forall i :: 0 <= i < |before| ==> es[i] == before[i];
    }
  }

  // ---------------------------------------------------------------------------
  // The timeout
  // ---------------------------------------------------------------------------

  /** The response that the wait goes by. */
  function LastResponse(es: seq<Event>): Option<Snapshot> {
    if es == [] then None
    else
      var last := es[|es| - 1];
      if last.Responded? then Some(last.snapshot) else LastResponse(es[..|es| - 1])
  }

  /** The entries looked at last: those of the response, or of the last update for its directory after it. */
  function LookedAt(es: seq<Event>): seq<Entry> {
    if es == [] then []
    else
      var before, last := es[..|es| - 1], es[|es| - 1];
      match last
      case Responded(s) => s.update.entries
      case Pushed(u) =>
        var response := LastResponse(before);
        if response.Some? && response.value.requestId != "" && response.value.update.cwd == u.cwd then u.entries
        else LookedAt(before)
      case _ => LookedAt(before)
  }

  /** Nothing is looked at before the response. */
  lemma {:induction false} NothingLookedAt(es: seq<Event>)
    requires LastResponse(es).None?
    ensures LookedAt(es) == []
  {
    if es != [] {
      NothingLookedAt(es[..|es| - 1]);
    }
  }

  /** While the wait is unsettled it knows its response and what it looked at last. */
  lemma {:induction false} WhileUnsettled(supported: bool, es: seq<Event>)
    requires Run(Start(supported), es).outcome.Pending?
    ensures var w := Run(Start(supported), es);
            && supported && w.latestEntries == LookedAt(es)
            && (w.requestId.None? <==> LastResponse(es).None?)
            && (w.requestId.Some? ==>
                  w.requestId == Some(LastResponse(es).value.requestId)
                  && w.snapshotCwd == LastResponse(es).value.update.cwd)
  {
    if es != [] {
      var before := Run(Start(supported), es[..|es| - 1]);
      assert before.outcome.Pending?;
      WhileUnsettled(supported, es[..|es| - 1]);
      hide Run, Complete, LoadingProviders;
    }
  }

  lemma {:induction false} LoadingAreFiltered(entries: seq<Entry>, names: seq<string>, loading: seq<Entry>)
    requires names == LoadingProviders(entries) && loading == Filter((e: Entry) => e.loading, entries)
    ensures |names| == |loading| && forall i :: 0 <= i < |names| ==> names[i] == loading[i].provider
    decreases entries
  {
    if entries != [] {
      LoadingAreFiltered(entries[1..], LoadingProviders(entries[1..]), Filter((e: Entry) => e.loading, entries[1..]));
    }
  }

  /** `names` lists, in order, the providers of the entries that are loading. */
  ghost predicate NamesLoading(names: seq<string>, entries: seq<Entry>) {
    var loading := Filter((e: Entry) => e.loading, entries);
    |names| == |loading| && forall i :: 0 <= i < |names| ==> names[i] == loading[i].provider
  }

  /**
   * Over every run: the timeout leaves no wait unsettled. It fails an unsettled one, naming the
   * providers that were loading when entries were looked at last, and none before the response;
   * so does a failed request, without names. A wait that is not supported fails at once.
   */
  lemma TimeoutSettles(supported: bool, es: seq<Event>)
    ensures var before, after := Run(Start(supported), es).outcome, Run(Start(supported), es + [TimeoutFired]).outcome;
            if !before.Pending? then after == before
            else after.Rejected? && after.failure.TimedOut? && NamesLoading(after.failure.loading, LookedAt(es))
                 && (LastResponse(es).None? ==> after.failure.loading == [])
    ensures var before := Run(Start(supported), es).outcome;
            var after := Run(Start(supported), es + [ResponseFailed]).outcome;
            after == if before.Pending? then Rejected(RequestFailed) else before
    ensures Start(supported).outcome == if supported then Pending else Rejected(Unsupported)
  {
    var w := Run(Start(supported), es);
    assert (es + [TimeoutFired])[..|es|] == es && (es + [ResponseFailed])[..|es|] == es;
    if w.outcome.Pending? {
      WhileUnsettled(supported, es);
      var names, loading := LoadingProviders(w.latestEntries), Filter((e: Entry) => e.loading, w.latestEntries);
      LoadingAreFiltered(w.latestEntries, names, loading);
      if LastResponse(es).None? {
        NothingLookedAt(es);
      }
      hide LookedAt, LastResponse, LoadingProviders, Filter;
    }
  }

  /** A run sees at most one response. */
  predicate AtMostOneResponse(es: seq<Event>) {
    forall i, j :: 0 <= i < j < |es| ==> !es[i].Responded? || !es[j].Responded?
  }

  /** A response with this id and directory came in. */
  predicate WasResponse(es: seq<Event>, requestId: string, cwd: Cwd) {
    exists i :: 0 <= i < |es| && es[i].Responded? && Answers(es[i].snapshot, requestId, cwd)
  }

  predicate Answers(s: Snapshot, requestId: string, cwd: Cwd) {
    s.requestId == requestId && s.update.cwd == cwd
  }

  /** The wait is right about the response it knows. */
  ghost predicate Sound(es: seq<Event>, w: Wait) {
    && (w.requestId.None? ==> forall i :: 0 <= i < |es| ==> !es[i].Responded?)
    && (w.requestId.Some? ==> WasResponse(es, w.requestId.value, w.snapshotCwd))
    && (forall cwd :: cwd in w.pendingUpdates ==> w.pendingUpdates[cwd].cwd == cwd)
    && (w.outcome.Resolved? ==>
          && w.requestId == Some(w.outcome.snapshot.requestId)
          && w.snapshotCwd == w.outcome.snapshot.update.cwd
          && Complete(w.outcome.snapshot.update.entries))
  }

  /**
   * Over every run with one response, however disturbed: the wait never resolves before the
   * response, with a loading entry, for another directory, or under another request id.
   */
  lemma {:induction false} ResolvesSoundly(supported: bool, es: seq<Event>)
    requires AtMostOneResponse(es)
    ensures Sound(es, Run(Start(supported), es))
  {
    if es != [] {
      var before, last := es[..|es| - 1], es[|es| - 1];
      ResolvesSoundly(supported, before);
      hide Run;
      StepIsSound(before, Run(Start(supported), before), last);
      assert es == before + [last];
    }
  }

  lemma StepIsSound(es: seq<Event>, w: Wait, e: Event)
    requires Sound(es, w) && AtMostOneResponse(es + [e])
    ensures Sound(es + [e], Step(w, e))
  {
    hide Complete, LoadingProviders;
    var all := es + [e];
    assert forall i :: 0 <= i < |es| ==> all[i] == es[i];
    assert all[|es|] == e;
    if w.requestId.Some? {
      var i :| 0 <= i < |es| && es[i].Responded? && Answers(es[i].snapshot, w.requestId.value, w.snapshotCwd);
      assert all[i].Responded? && Answers(all[i].snapshot, w.requestId.value, w.snapshotCwd);
      assert !all[|es|].Responded?;
    }
    if e.Responded? {
      assert Answers(all[|es|].snapshot, e.snapshot.requestId, e.snapshot.update.cwd);
    }
  }

  // ---------------------------------------------------------------------------
  // The wait as variables that its callbacks update
  // ---------------------------------------------------------------------------

  class ProvidersReadyWait {
    var outcome: Outcome
    var requestId: Option<string>
    var snapshotCwd: Cwd
    var pendingUpdates: map<Cwd, Update>
    var latestEntries: seq<Entry>

    function View(): Wait
      reads this
    {
      Wait(outcome, requestId, snapshotCwd, pendingUpdates, latestEntries)
    }

    constructor (supported: bool)
      ensures View() == Start(supported)
    {
      outcome := if supported then Pending else Rejected(Unsupported);
      requestId, snapshotCwd, pendingUpdates, latestEntries := None, None, map[], [];
    }

    method Finish(snapshot: Snapshot)
      modifies `outcome
      ensures View() == Settle(old(View()), Resolved(snapshot))
    {
      if outcome.Pending? {
        outcome := Resolved(snapshot);
      }
    }

    method Fail(failure: Failure)
      modifies `outcome
      ensures View() == Settle(old(View()), Rejected(failure))
    {
      if outcome.Pending? {
        outcome := Rejected(failure);
      }
    }

    /** The subscription, as long as it lasts. */
    method ReceiveUpdate(u: Update)
      modifies this
      ensures View() == Step(old(View()), Pushed(u))
    {
      if !outcome.Pending? {
        return;
      }
      if requestId.None? || requestId.value == "" {
        pendingUpdates := pendingUpdates[u.cwd := u];
        return;
      }
      if u.cwd != snapshotCwd {
        return;
      }
      latestEntries := u.entries;
      if !Complete(u.entries) {
        return;
      }
      Finish(Snapshot(requestId.value, u));
    }

    method ReceiveResponse(s: Snapshot)
      modifies this
      ensures View() == Step(old(View()), Responded(s))
    {
      requestId := Some(s.requestId);
      snapshotCwd := s.update.cwd;
      latestEntries := s.update.entries;
      if Complete(s.update.entries) {
        Finish(s);
        return;
      }
      if snapshotCwd in pendingUpdates && Complete(pendingUpdates[snapshotCwd].entries) {
        Finish(Snapshot(s.requestId, pendingUpdates[snapshotCwd]));
      }
    }

    method FireTimeout()
      modifies this
      ensures View() == Step(old(View()), TimeoutFired)
    {
      var loading: seq<string>, i := [], 0;
      while i < |latestEntries|
        invariant 0 <= i <= |latestEntries|
        invariant loading + LoadingProviders(latestEntries[i..]) == LoadingProviders(latestEntries)
        invariant View() == old(View())
      {
        assert latestEntries[i..][1..] == latestEntries[i + 1..];
        if latestEntries[i].loading {
          loading := loading + [latestEntries[i].provider];
        }
        i := i + 1;
      }
      assert latestEntries[i..] == [] && loading + [] == loading;
      Fail(TimedOut(loading));
    }
  }
}
