/** What an operation does, and what is left of it when the process dies. */
module Scripts {
  import opened Wrappers

  /** What an operation does when it is not interrupted: its effects in order, and how it ends. */
  datatype Performance<A, T> = Script(effects: seq<A>, outcome: Result<T>)

  function Refuse<A, T>(code: Code): Performance<A, T> {
    Script([], Failure(Refused(code)))
  }

  /** The effects `first`, then what `rest` does. */
  function Then<A, T>(first: seq<A>, rest: Performance<A, T>): Performance<A, T> {
    Script(first + rest.effects, rest.outcome)
  }

  function Take<A>(effects: seq<A>, fuel: nat): seq<A> {
    if fuel < |effects| then effects[..fuel] else effects
  }

  lemma Taken<A>(effects: seq<A>, fuel: nat)
    ensures Take(effects, fuel) == if fuel < |effects| then effects[..fuel] else effects
  {
  }

  lemma TakeAfter<A>(first: seq<A>, rest: seq<A>, fuel: nat)
    ensures Take(first + rest, fuel) == if fuel < |first| then first[..fuel] else first + Take(rest, fuel - |first|)
  {
  }

  lemma Cut<A>(first: seq<A>, rest: seq<A>, n: nat)
    requires n <= |first| + |rest|
    ensures n <= |first| ==> (first + rest)[..n] == first[..n]
    ensures n >= |first| ==> (first + rest)[..n] == first + rest[..n - |first|] && (first + rest)[n..] == rest[n - |first|..]
  {
  }

  /** A process with `fuel` effects left ran the script: it did the first `fuel` effects of it and,
      if those were not all, died. */
  predicate Ran<A(==), T(==)>(script: Performance<A, T>, before: seq<A>, fuel: nat, after: seq<A>, left: nat, r: Result<T>) {
    && after == before + Take(script.effects, fuel)
    && (fuel < |script.effects| ==> left == 0 && r == Failure(Crashed))
    && (fuel >= |script.effects| ==> left == fuel - |script.effects| && r == script.outcome)
  }
}
