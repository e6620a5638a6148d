/**
 The throttled error log of OverlayPluginLogLineConfig: one counter shared by every
 failure path, allowing at most MaxExceptionsLogged error lines per object.
 */
module Diagnostics {

  /** maxExceptionsLogged */
  const MaxExceptionsLogged: nat := 3

  /**
   An error line written to the log: its kind, with the game version and opcode name
   its message includes (the message text itself is not modelled).
   */
  datatype Diag =
    | CouldNotLoad                                       // reading or parsing opcodes.jsonc threw
    | NoGameVersion                                      // "Could not detect game version ..."
    | NoOpcodesForVersion(version: string)               // "No opcodes for game version ..."
    | NoOpcodeForName(version: string, name: string)     // "No opcode for game version ..., opcode name ..."

  /** exceptionCount together with the error lines emitted so far, oldest first. */
  datatype Throttle = Throttle(exceptionCount: nat, logged: seq<Diag>)

  /** The counter stays within the ceiling and counts exactly the lines emitted. */
  predicate WithinBudget(t: Throttle)
  {
    t.exceptionCount <= MaxExceptionsLogged && |t.logged| == t.exceptionCount
  }

  /** A fresh object: no error counted, nothing logged. */
  const Unused := Throttle(0, [])

  /** One guarded failure: count and log the line while below the ceiling, else stay silent. */
  function Report(t: Throttle, d: Diag): (t': Throttle)
    ensures WithinBudget(t) ==> WithinBudget(t')
    ensures t'.exceptionCount == t.exceptionCount + 1 <==> t.exceptionCount < MaxExceptionsLogged
    ensures t'.exceptionCount != t.exceptionCount + 1 ==> t' == t
    ensures t'.exceptionCount == t.exceptionCount + 1 ==> t'.logged == t.logged + [d]
  {
    if t.exceptionCount < MaxExceptionsLogged then Throttle(t.exceptionCount + 1, t.logged + [d]) else t
  }

  /** A series of failures, reported in order. */
  function ReportAll(t: Throttle, ds: seq<Diag>): (t': Throttle)
    ensures WithinBudget(t) ==> WithinBudget(t')
    ensures t.exceptionCount <= t'.exceptionCount
    ensures t.logged <= t'.logged
    decreases |ds|
  {
    if ds == [] then t else ReportAll(Report(t, ds[0]), ds[1..])
  }

  function Min(a: nat, b: nat): nat
  {
    if a < b then a else b
  }

  /**
   Over any series of failures the counter grows by one per failure until it reaches
   the ceiling, and the lines emitted are exactly the first ones of the series.
   */
  lemma {:induction false} ReportAllLogsFirst(t: Throttle, ds: seq<Diag>)
    requires WithinBudget(t)
    ensures var k := Min(|ds|, MaxExceptionsLogged - t.exceptionCount);
            ReportAll(t, ds) == Throttle(t.exceptionCount + k, t.logged + ds[..k])
    decreases |ds|
  {
    if ds != [] {
      var t1 := Report(t, ds[0]);
      ReportAllLogsFirst(t1, ds[1..]);
      if t.exceptionCount < MaxExceptionsLogged {
        var k := Min(|ds|, MaxExceptionsLogged - t.exceptionCount);
        assert ds[1..][..k - 1] == ds[1..k];
        assert t1.logged + ds[1..k] == t.logged + ds[..k];
      }
    }
  }

  /** Once the ceiling is reached every later failure is silent. */
  lemma {:induction false} SilentOnceExhausted(t: Throttle, ds: seq<Diag>)
    requires t.exceptionCount >= MaxExceptionsLogged
    ensures ReportAll(t, ds) == t
    decreases |ds|
  {
    if ds != [] {
      SilentOnceExhausted(Report(t, ds[0]), ds[1..]);
    }
  }

  /** A fresh object that fails three or more times emits exactly MaxExceptionsLogged lines: the first ones. */
  lemma FreshObjectLogsFirstThree(ds: seq<Diag>)
    requires |ds| >= MaxExceptionsLogged
    ensures ReportAll(Unused, ds) == Throttle(MaxExceptionsLogged, ds[..MaxExceptionsLogged])
  {
    ReportAllLogsFirst(Unused, ds);
  }
}
