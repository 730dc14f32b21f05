/**
 * The adapter's lifecycle state and its readiness predicates
 * (ServerAdapter.java:129-165, 183-191).
 *
 * The adapter declares a private enum `ServerState` with five constants and
 * reads it through `isRunning`, `isStarted`, ... . Those predicates name
 * `STARTED`, `STARTING`, ... without the enum's qualifier; inside the outer
 * class the enum's constants are not in scope, so the names resolve to the
 * `String` constants the class inherits from Jetty's `AbstractLifeCycle`, and
 * each predicate asks whether a `String` equals an enum constant.
 * `AsWritten*` models what the code does; `Intended*` is what it evidently
 * means. Lemma `ReadinessAsWrittenIsAlwaysFalse` and `StartedDisagreement`
 * show the two differ.
 */
module Lifecycle {

  /** The private enum `ServerAdapter.ServerState`, in declaration order. */
  datatype ServerState = Failed | Starting | Started | Stopping | Stopped

  /** `Enum.name()`: the constant's name as declared. */
  function Name(st: ServerState): (r: string)
    ensures |r| > 0
  {
    match st
    case Failed => "FAILED"
    case Starting => "STARTING"
    case Started => "STARTED"
    case Stopping => "STOPPING"
    case Stopped => "STOPPED"
  }

  /** Names are never shared between two states. */
  lemma NameInjective(a: ServerState, b: ServerState)
    requires Name(a) == Name(b)
    ensures a == b
  {
  }

  /** A Java object as `Object.equals` sees it here: a `String`, or a constant of `ServerState`. */
  datatype JavaObject = JavaString(chars: string) | JavaEnum(state: ServerState)

  /** `String.equals(Object)`: true exactly for another `String` with the same characters. */
  function StringEquals(s: string, other: JavaObject): (r: bool)
    ensures r <==> other == JavaString(s)
  {
    match other
    case JavaString(chars) => chars == s
    case JavaEnum(_) => false
  }

  /*
   * The `String` constants of Jetty's `AbstractLifeCycle` that the unqualified
   * names resolve to. Their values do not matter for what follows: no `String`
   * equals an enum constant, whatever its characters.
   */
  const InheritedFailed: string := "FAILED"
  const InheritedStarting: string := "STARTING"
  const InheritedStarted: string := "STARTED"
  const InheritedStopping: string := "STOPPING"
  const InheritedStopped: string := "STOPPED"

  /** `isRunning` as written: `STARTED.equals(serverState)` with the inherited `String`. */
  predicate AsWrittenRunning(st: ServerState) { StringEquals(InheritedStarted, JavaEnum(st)) }
  /** `isStarted` as written. */
  predicate AsWrittenStarted(st: ServerState) { StringEquals(InheritedStarted, JavaEnum(st)) }
  /** `isStarting` as written. */
  predicate AsWrittenStarting(st: ServerState) { StringEquals(InheritedStarting, JavaEnum(st)) }
  /** `isStopping` as written. */
  predicate AsWrittenStopping(st: ServerState) { StringEquals(InheritedStopping, JavaEnum(st)) }
  /** `isStopped` as written. */
  predicate AsWrittenStopped(st: ServerState) { StringEquals(InheritedStopped, JavaEnum(st)) }
  /** `isFailed` as written. */
  predicate AsWrittenFailed(st: ServerState) { StringEquals(InheritedFailed, JavaEnum(st)) }

  /** As written, every readiness predicate is false in every state. */
  lemma ReadinessAsWrittenIsAlwaysFalse(st: ServerState)
    ensures !AsWrittenRunning(st) && !AsWrittenStarted(st) && !AsWrittenStarting(st)
    ensures !AsWrittenStopping(st) && !AsWrittenStopped(st) && !AsWrittenFailed(st)
  {
  }

  /** The intended readiness predicates: compare the state with the enum constant. */
  predicate IntendedRunning(st: ServerState) { st == Started }
  predicate IntendedStarted(st: ServerState) { st == Started }
  predicate IntendedStarting(st: ServerState) { st == Starting }
  predicate IntendedStopping(st: ServerState) { st == Stopping }
  predicate IntendedStopped(st: ServerState) { st == Stopped }
  predicate IntendedFailed(st: ServerState) { st == Failed }

  /**
   * The intended predicates agree with the state's name: each holds exactly
   * when the state is the one its inherited constant names.
   */
  lemma IntendedMatchesName(st: ServerState)
    ensures IntendedStarted(st) <==> Name(st) == InheritedStarted
    ensures IntendedRunning(st) <==> Name(st) == InheritedStarted
    ensures IntendedStarting(st) <==> Name(st) == InheritedStarting
    ensures IntendedStopping(st) <==> Name(st) == InheritedStopping
    ensures IntendedStopped(st) <==> Name(st) == InheritedStopped
    ensures IntendedFailed(st) <==> Name(st) == InheritedFailed
  {
  }

  /** In the only state the adapter ever has, the intended answers are "running and started, nothing else". */
  lemma IntendedReadinessWhenStarted(st: ServerState)
    requires st == Started
    ensures IntendedRunning(st) && IntendedStarted(st)
    ensures !IntendedStarting(st) && !IntendedStopping(st) && !IntendedStopped(st) && !IntendedFailed(st)
  {
  }

  /** The input that shows the defect: in state `Started`, `isStarted` as written answers false. */
  lemma StartedDisagreement()
    ensures IntendedStarted(Started) && !AsWrittenStarted(Started)
    ensures IntendedRunning(Started) && !AsWrittenRunning(Started)
  {
  }
}
