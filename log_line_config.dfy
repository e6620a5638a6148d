/**
 OverlayPluginLogLineConfig: the opcode table loaded once at construction and the
 `this[name]` indexer that resolves a name for the current game version, logging
 failures through the shared throttle.

 The specification is written on values first (State, Init, Step, Run); the class
 at the end keeps the same state in mutable fields and is proved against it.
 */
module LogLineConfig {
  import opened Wrappers
  import opened OpcodeTable
  import opened Diagnostics

  /** One use of the indexer: the version the game repository reports, and the name asked for. */
  datatype Query = Query(version: Option<string>, name: string)

  /** The object's state: its table and its error counter with the lines it emitted. */
  datatype State = State(config: Table, throttle: Throttle)

  /** A lookup's new state and the branch it took. */
  datatype Outcome = Outcome(next: State, result: LookupResult)

  /** The whole history of a series of lookups. */
  datatype Trace = Trace(final: State, results: seq<LookupResult>)

  /**
   The constructor: the loaded table, or (when reading or parsing threw) the empty
   table of the field initialiser and one guarded error line.
   */
  function Init(loaded: Option<Table>): (s: State)
    ensures WithinBudget(s.throttle)
    ensures loaded.Some? ==> s == State(loaded.value, Unused)
    ensures loaded.None? ==> s == State(map[], Throttle(1, [CouldNotLoad]))
  {
    match loaded
    case Some(table) => State(table, Unused)
    case None => State(map[], Report(Unused, CouldNotLoad))
  }

  /** The error line each failure branch writes. */
  function FailureDiag(r: LookupResult): (d: Diag)
    requires !r.Found?
    ensures d != CouldNotLoad
    ensures d.NoGameVersion? <==> r.NoVersion?
    ensures d.NoOpcodesForVersion? <==> r.UnknownVersion?
    ensures d.NoOpcodeForName? <==> r.UnknownOpcode?
    ensures r.UnknownVersion? ==> d == NoOpcodesForVersion(r.version)
    ensures r.UnknownOpcode? ==> d == NoOpcodeForName(r.version, r.name)
  {
    match r
    case NoVersion => NoGameVersion
    case UnknownVersion(v) => NoOpcodesForVersion(v)
    case UnknownOpcode(v, n) => NoOpcodeForName(v, n)
  }

  /** One use of the indexer. */
  function Step(s: State, q: Query): (o: Outcome)
    ensures o.next.config == s.config
    ensures o.result == Resolve(s.config, q.version, q.name)
    ensures WithinBudget(s.throttle) ==> WithinBudget(o.next.throttle)
    ensures o.result.Found? ==> o.next.throttle == s.throttle
  {
    var r := Resolve(s.config, q.version, q.name);
    Outcome(State(s.config, if r.Found? then s.throttle else Report(s.throttle, FailureDiag(r))), r)
  }

  /** A series of lookups on one object, in order. */
  function Run(s: State, qs: seq<Query>): (t: Trace)
    ensures |t.results| == |qs|
    decreases |qs|
  {
    if qs == [] then Trace(s, [])
    else
      var o := Step(s, qs[0]);
      var rest := Run(o.next, qs[1..]);
      Trace(rest.final, [o.result] + rest.results)
  }

  /** The error lines the failing lookups among qs ask for, in order. */
  function FailureDiags(config: Table, qs: seq<Query>): seq<Diag>
    decreases |qs|
  {
    if qs == [] then []
    else
      var r := Resolve(config, qs[0].version, qs[0].name);
      (if r.Found? then [] else [FailureDiag(r)]) + FailureDiags(config, qs[1..])
  }

  /**
   Per lookup: the table never changes; on success the counter and the log are
   untouched; on failure exactly one guarded report of that branch's line.
   */
  lemma StepEffect(s: State, q: Query)
    requires WithinBudget(s.throttle)
    ensures var o := Step(s, q);
            && o.next.config == s.config
            && WithinBudget(o.next.throttle)
            && o.result == Resolve(s.config, q.version, q.name)
            && (o.result.Found? ==> o.next == s)
            && (!o.result.Found? && s.throttle.exceptionCount < MaxExceptionsLogged ==>
                  o.next.throttle ==
                  Throttle(s.throttle.exceptionCount + 1, s.throttle.logged + [FailureDiag(o.result)]))
            && (!o.result.Found? && s.throttle.exceptionCount >= MaxExceptionsLogged ==> o.next == s)
  {
  }

  /** A lookup whose version is unknown fails as NoVersion and logs NoGameVersion if any line. */
  lemma NullVersionLookup(s: State, name: string)
    ensures Step(s, Query(None, name)).result == NoVersion
    ensures Step(s, Query(None, name)).next == State(s.config, Report(s.throttle, NoGameVersion))
  {
  }

  /** The same lookup repeated gives the same answer: results depend only on the table. */
  lemma RepeatedLookupSameResult(s: State, q: Query)
    ensures Step(Step(s, q).next, q).result == Step(s, q).result
  {
  }

  /** In a series of lookups each answer is the table's answer for that query alone. */
  lemma {:induction false} RunResolvesEachQuery(s: State, qs: seq<Query>, i: nat)
    requires i < |qs|
    ensures Run(s, qs).results[i] == Resolve(s.config, qs[i].version, qs[i].name)
    decreases |qs|
  {
    if i > 0 {
      RunResolvesEachQuery(Step(s, qs[0]).next, qs[1..], i - 1);
    }
  }

  /**
   After any series of lookups the table is the one built at construction, and the
   throttle has seen exactly the failing lookups' lines, in order.
   */
  lemma {:induction false} RunThrottlesFailures(s: State, qs: seq<Query>)
    ensures Run(s, qs).final == State(s.config, ReportAll(s.throttle, FailureDiags(s.config, qs)))
    decreases |qs|
  {
    if qs != [] {
      var o := Step(s, qs[0]);
      RunThrottlesFailures(o.next, qs[1..]);
      assert Run(s, qs).final == Run(o.next, qs[1..]).final;
      var r := Resolve(s.config, qs[0].version, qs[0].name);
      if !r.Found? {
        var ds := FailureDiags(s.config, qs);
        assert ds[0] == FailureDiag(r) && ds[1..] == FailureDiags(s.config, qs[1..]);
        assert ReportAll(s.throttle, ds) == ReportAll(o.next.throttle, ds[1..]);
      } else {
        assert FailureDiags(s.config, qs) == FailureDiags(s.config, qs[1..]);
      }
    }
  }

  /**
   The error log limit over the object's lifetime: the counter stays within
   MaxExceptionsLogged, equals the number of lines emitted, grows by one per failure
   until the ceiling, and the lines emitted are those of the first failures.
   */
  lemma RunLogsFirstFailures(s: State, qs: seq<Query>)
    requires WithinBudget(s.throttle)
    ensures var ds := FailureDiags(s.config, qs);
            var k := Min(|ds|, MaxExceptionsLogged - s.throttle.exceptionCount);
            var f := Run(s, qs).final;
            && f.config == s.config
            && WithinBudget(f.throttle)
            && f.throttle == Throttle(s.throttle.exceptionCount + k, s.throttle.logged + ds[..k])
  {
    RunThrottlesFailures(s, qs);
    ReportAllLogsFirst(s.throttle, FailureDiags(s.config, qs));
  }

  /**
   After a failed load the table stays empty and exactly one line is logged; every
   later lookup then fails, as NoVersion without a version and UnknownVersion otherwise.
   */
  lemma FailedLoadAnswers(qs: seq<Query>, i: nat)
    requires i < |qs|
    ensures Init(None).config == map[] && Init(None).throttle == Throttle(1, [CouldNotLoad])
    ensures Run(Init(None), qs).final.config == map[]
    ensures Run(Init(None), qs).results[i] ==
              if qs[i].version.None? then NoVersion else UnknownVersion(qs[i].version.value)
  {
    RunResolvesEachQuery(Init(None), qs, i);
    RunThrottlesFailures(Init(None), qs);
    EmptyTableResolves(qs[i].version, qs[i].name);
  }

  /** The object of OverlayPluginLogLineConfig, with its fields updated in place. */
  class OverlayPluginLogLineConfig {
    var config: Table
    var exceptionCount: nat
    ghost var log: seq<Diag>   // the error lines handed to the logger, oldest first

    ghost function Model(): State
      reads this
    {
      State(config, Throttle(exceptionCount, log))
    }

    ghost predicate Valid()
      reads this
    {
      WithinBudget(Model().throttle)
    }

    /** `loaded` is the result of reading and parsing opcodes.jsonc: None when either threw. */
    constructor (loaded: Option<Table>)
      ensures Valid()
      ensures Model() == Init(loaded)
    {
      config := map[];
      exceptionCount := 0;
      log := [];
      new;
      match loaded {
        case Some(table) =>
          config := table;
        case None =>
          LogError(CouldNotLoad);
      }
    }

    /** The guarded `++exceptionCount` and error log line every failure path shares. */
    method LogError(d: Diag)
      requires Valid()
      modifies this
      ensures Valid()
      ensures config == old(config)
      ensures Model().throttle == Report(old(Model().throttle), d)
    {
      if exceptionCount < MaxExceptionsLogged {
        exceptionCount := exceptionCount + 1;
        log := log + [d];
      }
    }

    /** The indexer `this[name]`; `version` is what the game repository reports. */
    method Lookup(version: Option<string>, name: string) returns (entry: Option<OpcodeEntry>)
      requires Valid()
      modifies this
      ensures Valid()
      ensures config == old(config)
      ensures Model() == Step(old(Model()), Query(version, name)).next
      ensures entry == Returned(Step(old(Model()), Query(version, name)).result)
    {
      if version.None? {
        LogError(NoGameVersion);
        return None;
      }
      if version.value !in config {
        LogError(NoOpcodesForVersion(version.value));
        return None;
      }
      var versionOpcodes := config[version.value];
      if name !in versionOpcodes {
        LogError(NoOpcodeForName(version.value, name));
        return None;
      }
      return Some(versionOpcodes[name]);
    }
  }

  /** A client relying only on the contracts above. */
  method ClientScenario()
  {
    var actorControl := OpcodeEntry(306, 48);
    var o := new OverlayPluginLogLineConfig(Some(map["7.05" := map["ActorControl" := actorControl]]));
    var e := o.Lookup(Some("7.05"), "ActorControl");
    assert e == Some(actorControl) && o.exceptionCount == 0;
    e := o.Lookup(Some("7.10"), "ActorControl");
    assert e == None && o.log == [NoOpcodesForVersion("7.10")];
    e := o.Lookup(Some("7.05"), "StatusList");
    e := o.Lookup(None, "ActorControl");
    assert o.exceptionCount == 3;
    e := o.Lookup(None, "ActorControl");
    assert e == None && o.exceptionCount == 3 && |o.log| == 3;
    e := o.Lookup(Some("7.05"), "ActorControl");
    assert e == Some(actorControl);
  }
}
