/** How the starts of one timer are spaced, over whole runs. */
module TimerSchedule {
  import opened Time
  import opened OrderedEntries
  import opened TimerState
  import opened TimerInvariants
  import opened TimerHistory
  import opened Arithmetic

  /** Two starts of the same timer are at least one interval apart, and only a repeating timer has two. */
  ghost predicate Spaced(log: seq<Start>) {
    forall i, j :: 0 <= i < j < |log| && log[i].sequence == log[j].sequence ==>
      log[i].interval == log[j].interval > 0.0 && AddTime(log[i].at, log[i].interval) <= log[j].at
  }

  /** A logged start belongs to the timer t. */
  ghost predicate IsOf(x: Start, t: Timer) {
    x.sequence == t.sequence
  }

  /** The log agrees with the timers that live. */
  ghost predicate Scheduled(s: State) {
    && Spaced(s.log)
    && (forall x :: x in s.log ==> x.sequence <= s.created)
    && (forall x, a :: x in s.log && a in s.heap && IsOf(x, s.heap[a]) ==> x.interval == s.heap[a].interval)
    && (forall x, a :: x in s.log && IsActive(s, a) && IsOf(x, s.heap[a]) ==>
          s.heap[a].Repeat() && AddTime(x.at, x.interval) <= s.heap[a].expiration)
    && (forall x, a :: x in s.log && HandedOver(s, a) && a in s.heap ==> !IsOf(x, s.heap[a]))
  }

  /** The timers of the batch still to be started may be started at `now`. */
  ghost predicate Ready(s: State, rest: seq<Entry>, now: Timestamp) {
    forall x, e :: x in s.log && e in rest && e.addr in s.heap && IsOf(x, s.heap[e.addr]) ==>
      s.heap[e.addr].Repeat() && AddTime(x.at, x.interval) <= now
  }

  /** No timer of the batch was started after `now`. */
  ghost predicate NotLater(s: State, now: Timestamp) {
    forall x, e :: x in s.log && e in s.batch && e.addr in s.heap && IsOf(x, s.heap[e.addr]) ==> x.at <= now
  }

  lemma EvolvingKeepsSchedule(s: State, s': State)
    requires Scheduled(s) && Evolves(s, s')
    ensures Scheduled(s')
  {
  }

  lemma ArmingKeepsSchedule(s: State, s': State)
    requires Scheduled(s) && s' == s.(armed := s'.armed)
    ensures Scheduled(s')
  {
  }

  lemma ExtractKeepsSchedule(s: State, now: Timestamp)
    requires Inv(s) && s.batch == [] && Scheduled(s)
    ensures var s' := Extract(s, now); Scheduled(s') && Ready(s', s'.batch, now) && NotLater(s', now)
  {
    var s' := Extract(s, now);
    assert forall a :: IsActive(s', a) ==> IsActive(s, a);
    assert forall a :: HandedOver(s', a) ==> HandedOver(s, a);
    forall x, e | x in s'.log && e in s'.batch && e.addr in s'.heap && IsOf(x, s'.heap[e.addr])
      ensures s'.heap[e.addr].Repeat() && AddTime(x.at, x.interval) <= now && x.at <= now {
      AddTimeNeverBackwards(x.at, x.interval);
    }
  }

  lemma StartIsSpaced(s: State, e: Entry, now: Timestamp)
    requires Scheduled(s) && e.addr in s.heap && Ready(s, [e], now)
    ensures Spaced(StartRun(s, e, now).log)
  {
  }

  lemma StartIsScheduled(s: State, e: Entry, now: Timestamp)
    requires Inv(s) && Scheduled(s) && e in s.batch && e.addr in s.heap && Ready(s, [e], now)
    ensures Scheduled(StartRun(s, e, now))
  {
    var s' := StartRun(s, e, now);
    StartIsSpaced(s, e, now);
    assert forall a :: IsActive(s', a) <==> IsActive(s, a);
    assert forall a :: HandedOver(s', a) <==> HandedOver(s, a);
  }

  lemma StartKeepsSchedule(s: State, rest: seq<Entry>, now: Timestamp)
    requires Inv(s) && Scheduled(s) && rest != [] && DistinctAddresses(rest)
    requires forall e :: e in rest ==> e in s.batch
    requires Ready(s, rest, now) && NotLater(s, now)
    ensures var s' := StartRun(s, rest[0], now);
            Scheduled(s') && Ready(s', rest[1..], now) && NotLater(s', now)
  {
    var s' := StartRun(s, rest[0], now);
    StartIsScheduled(s, rest[0], now);
    var x0 := Start(s.heap[rest[0].addr].sequence, s.heap[rest[0].addr].interval, now);
    assert forall x :: x in s'.log <==> x in s.log || x == x0;
    DistinctTail(rest);
  }

  lemma {:induction false} CallbacksKeepSchedule(s: State, rest: seq<Entry>, now: Timestamp, scripts: seq<seq<Command>>)
    requires Inv(s) && Scheduled(s) && DistinctAddresses(rest)
    requires forall e :: e in rest ==> e in s.batch
    requires Ready(s, rest, now) && NotLater(s, now)
    ensures var s' := RunCallbacks(s, rest, now, scripts); Scheduled(s') && NotLater(s', now)
    decreases |rest|
  {
    if rest != [] {
      var s1 := StartRun(s, rest[0], now);
      var s2 := RunScript(s1, FirstScript(scripts));
      CallbackKeepsBatch(s, rest[0], now, FirstScript(scripts));
      StartKeepsSchedule(s, rest, now);
      CallbackEvolves(s, rest[0], now, FirstScript(scripts));
      EvolvingKeepsSchedule(s1, s2);
      DistinctTail(rest);
      CallbacksKeepSchedule(s2, rest[1..], now, OtherScripts(scripts));
    }
  }

  /** What one step of reset does to the timer at a: it is restarted at `now`, or gone. */
  ghost predicate Settles(s: State, s': State, a: Address, now: Timestamp) {
    && s'.log == s.log && s'.created == s.created
    && a in s.heap
    && (forall e :: e in s'.batch ==> e in s.batch && e.addr != a)
    && (forall b :: b in s'.heap && b != a ==> b in s.heap && s'.heap[b] == s.heap[b])
    && (a in s'.heap ==> s.heap[a].Repeat() && s'.heap[a] == s.heap[a].Restart(now))
    && (forall b :: IsActive(s', b) && b != a ==> IsActive(s, b))
    && (forall b :: HandedOver(s', b) ==> HandedOver(s, b) && b != a)
  }

  lemma SettleSettles(s: State, now: Timestamp)
    requires Inv(s) && s.batch != []
    ensures Settles(s, Settle(s, now), s.batch[0].addr, now)
  {
  }

  lemma SettleKeepsSchedule(s: State, now: Timestamp)
    requires Inv(s) && s.batch != [] && Scheduled(s) && NotLater(s, now)
    ensures Scheduled(Settle(s, now)) && NotLater(Settle(s, now), now)
  {
    SettleSettles(s, now);
  }

  lemma EvolvingKeepsNotLater(s: State, s': State, now: Timestamp)
    requires Inv(s) && Evolves(s, s') && NotLater(s, now)
    ensures NotLater(s', now)
  {
  }

  lemma RearmKeepsSchedule(s: State, now: Timestamp)
    requires Scheduled(s) && NotLater(s, now)
    ensures Scheduled(Rearm(s)) && NotLater(Rearm(s), now)
  {
  }

  lemma {:induction false} SettleAllKeepsSchedule(s: State, now: Timestamp, freed: seq<seq<Command>>, v: Variant,
                                                  nextExpire: Timestamp)
    requires Inv(s) && Scheduled(s) && NotLater(s, now)
    ensures var s' := SettleAll(s, now, freed, v, nextExpire); Scheduled(s') && NotLater(s', now)
    decreases |s.batch|
  {
    if s.batch != [] {
      var s1, s2 := Settle(s, now), AfterRound(s, now, FirstScript(freed), v, nextExpire);
      SettleKeepsSchedule(s, now);
      SettleKeepsInv(s, now);
      RoundEvolves(s, now, FirstScript(freed), v, nextExpire);
      EvolvingKeepsSchedule(s1, s2);
      EvolvingKeepsNotLater(s1, s2, now);
      AfterRoundKeepsInv(s, now, FirstScript(freed), v, nextExpire);
      SettleAllKeepsSchedule(s2, now, OtherScripts(freed), v, NextExpire(SettleRound(s, now, FirstScript(freed)), nextExpire));
    }
  }

  lemma AtResetKeepsSchedule(s: State, now: Timestamp, scripts: seq<seq<Command>>)
    requires Inv(s) && TopLevel(s) && Scheduled(s)
    ensures Scheduled(AtReset(s, now, scripts)) && NotLater(AtReset(s, now, scripts), now)
  {
    var s1 := Extract(s, now);
    ExtractKeepsInv(s, now);
    ExtractKeepsSchedule(s, now);
    CallbacksKeepSchedule(s1, s1.batch, now, scripts);
    FlagIsNoMatter(RunCallbacks(s1, s1.batch, now, scripts), now);
  }

  lemma FlagIsNoMatter(s: State, now: Timestamp)
    requires Scheduled(s) && NotLater(s, now)
    ensures Scheduled(s.(calling := false)) && NotLater(s.(calling := false), now)
  {
    assert forall a :: IsActive(s.(calling := false), a) <==> IsActive(s, a);
  }

  lemma FireKeepsSchedule(s: State, now: Timestamp, scripts: seq<seq<Command>>, freed: seq<seq<Command>>, v: Variant)
    requires Inv(s) && TopLevel(s) && Scheduled(s)
    ensures Scheduled(Fire(s, now, scripts, freed, v))
  {
    var s3 := AtReset(s, now, scripts);
    AtResetKeepsInv(s, now, scripts);
    AtResetKeepsSchedule(s, now, scripts);
    SettleAllKeepsSchedule(s3, now, freed, v, INVALID);
    RearmKeepsSchedule(SettleAll(s3, now, freed, v, INVALID), now);
  }

  /** In every run, whatever the clock does: one timer's starts are at least its interval apart. */
  lemma {:induction false} RunKeepsSchedule(s: State, es: seq<Event>, v: Variant)
    requires Inv(s) && TopLevel(s) && Scheduled(s)
    ensures Scheduled(Run(s, es, v))
    decreases |es|
  {
    if es != [] {
      StepKeepsInv(s, es[0], v);
      match es[0] {
        case Do(c) =>
          ExecEvolves(s, c);
          EvolvingKeepsSchedule(s, Exec(s, c));
        case Deliver =>
          DeliverEvolves(s);
          EvolvingKeepsSchedule(s, DeliverNext(s));
        case Fired(expired, now, scripts, freed) =>
          var s0 := ReadTimerfd(s, expired);
          ArmingIsIrrelevant(s, s0);
          ArmingKeepsSchedule(s, s0);
          FireKeepsSchedule(s0, now, scripts, freed, v);
      }
      RunKeepsSchedule(Step(s, es[0], v), es[1..], v);
    }
  }

  /** A one-shot timer starts at most once in a run from the beginning. */
  lemma OneShotStartsOnce(es: seq<Event>, v: Variant, i: nat, j: nat)
    requires i < |Run(INITIAL, es, v).log| && j < |Run(INITIAL, es, v).log|
    requires Run(INITIAL, es, v).log[i].sequence == Run(INITIAL, es, v).log[j].sequence
    requires Run(INITIAL, es, v).log[i].interval <= 0.0
    ensures i == j
  {
    RunKeepsSchedule(INITIAL, es, v);
  }

  /** The starts at the given positions are all of one timer. */
  ghost predicate SameTimer(log: seq<Start>, positions: seq<nat>) {
    && (forall k :: 0 <= k < |positions| ==> positions[k] < |log|)
    && (forall k :: 0 < k < |positions| ==> positions[k - 1] < positions[k])
    && (forall k :: 0 < k < |positions| ==> log[positions[k - 1]].sequence == log[positions[k]].sequence)
  }

  lemma LastStep(log: seq<Start>, positions: seq<nat>)
    requires Spaced(log) && |positions| > 1 && SameTimer(log, positions)
    ensures var before := log[positions[|positions| - 2]]; var last := log[positions[|positions| - 1]];
            last.interval == before.interval && last.at - before.at >= Delta(before.interval)
  {
    var k := |positions| - 1;
    assert positions[k - 1] < positions[k];
  }

  lemma {:induction false} SpanOfPositions(log: seq<Start>, positions: seq<nat>)
    requires Spaced(log) && positions != [] && SameTimer(log, positions)
    ensures var first := log[positions[0]]; var last := log[positions[|positions| - 1]];
            && last.interval == first.interval
            && last.at - first.at >= (|positions| - 1) * Delta(first.interval)
    decreases |positions|
  {
    var n := |positions|;
    if n > 1 {
      var init := positions[..n - 1];
      SpanOfPositions(log, init);
      LastStep(log, positions);
      OneMore(n - 2, Delta(log[positions[0]].interval));
    }
  }

  /** In every run from the beginning, k starts of one timer span at least k - 1 of its intervals. */
  lemma StartsSpan(es: seq<Event>, v: Variant, positions: seq<nat>)
    requires positions != [] && SameTimer(Run(INITIAL, es, v).log, positions)
    ensures var log := Run(INITIAL, es, v).log;
            log[positions[|positions| - 1]].at - log[positions[0]].at
              >= (|positions| - 1) * Delta(log[positions[0]].interval)
  {
    RunKeepsSchedule(INITIAL, es, v);
    SpanOfPositions(Run(INITIAL, es, v).log, positions);
  }
}
