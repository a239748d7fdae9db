/** `getMaxStackTraceLines`: the number of trailing lines a parser may fold
    into a record as a stack trace, derived from the error policy. */
module ErrorPolicy {
  import opened Wrappers
  import opened LogTypes

  /** The switch over a null policy throws. */
  datatype PolicyError = NullPolicy

  /** -1 for ERROR, 0 for IGNORE and the configured trim length, unchecked,
      for INCLUDE_AS_STACK_TRACE. */
  function MaxStackTraceLines(policy: Option<OnParseError>, trimLength: int32): (r: Result<int32, PolicyError>)
    ensures r.Failure? <==> policy.None?
    ensures policy == Some(Error) ==> r == Success(-1)
    ensures policy == Some(Ignore) ==> r == Success(0)
    ensures policy == Some(IncludeAsStackTrace) ==> r == Success(trimLength)
  {
    match policy
    case None => Failure(NullPolicy)
    case Some(Error) => Success(-1)
    case Some(Ignore) => Success(0)
    case Some(IncludeAsStackTrace) => Success(trimLength)
  }

  /** The budget of a policy that is present. */
  function Budget(policy: OnParseError, trimLength: int32): int32 {
    MaxStackTraceLines(Some(policy), trimLength).value
  }

  /** A parser that only sees the budget can tell which policy was chosen. */
  ghost predicate BudgetIdentifiesPolicy(trimLength: int32) {
    forall p: OnParseError, q: OnParseError ::
      Budget(p, trimLength) == Budget(q, trimLength) ==> p == q
  }

  /** Because the trim length is passed on unchecked, INCLUDE_AS_STACK_TRACE
      is indistinguishable from ERROR when it is -1 and from IGNORE when it
      is 0, and from neither otherwise. */
  lemma PolicyRecoverableFromBudget(trimLength: int32)
    ensures BudgetIdentifiesPolicy(trimLength) <==> trimLength != -1 && trimLength != 0
  {
    if trimLength == -1 {
      assert Budget(IncludeAsStackTrace, trimLength) == Budget(Error, trimLength);
    } else if trimLength == 0 {
      assert Budget(IncludeAsStackTrace, trimLength) == Budget(Ignore, trimLength);
    } else {
      forall p: OnParseError, q: OnParseError | Budget(p, trimLength) == Budget(q, trimLength)
        ensures p == q
      {
      }
    }
  }
}
