/**
 * `Resource.__call__` and `Client.__call__`, which are written identically:
 * `getattr(self, args.func)` and, when that succeeds, a call with the same arguments.
 */
module ServiceBase {
  import opened Wrappers
  import opened Aws

  /** The message printed for an operation name the handler has no attribute for. */
  function NotRecognized(func: string): (r: string)
    ensures |r| == 8 + |func| + 19
    ensures r[..8] == "Command " && r[8..8 + |func|] == func
    ensures r[8 + |func|..] == " was not recognized"
  {
    "Command " + func + " was not recognized"
  }

  /**
   * A handler's `__call__`. `operations` are its operation methods, run by `invoke`;
   * `members` are its other attributes (helpers, `session`, the SDK handle); any other
   * name fails the attribute lookup, which is caught and reported.
   */
  function Call(operations: seq<string>, members: seq<string>, func: Option<string>, invoke: string -> Run): (r: Run)
    requires forall name :: name in operations ==> name !in members
    ensures func.None? ==> r == Run([], Some(NoOperation))
    ensures func.Some? && func.value in operations ==> r == invoke(func.value)
    ensures func.Some? && func.value in members ==> r == Run([], Some(UnmodelledMember(func.value)))
    ensures func.Some? && func.value !in operations && func.value !in members ==>
      r == Run([Print(NotRecognized(func.value))], None)
  {
    match func
    case None => Run([], Some(NoOperation))
    case Some(name) =>
      if name in operations then invoke(name)
      else if name in members then Run([], Some(UnmodelledMember(name)))
      else Run([Print(NotRecognized(name))], None)
  }
}
