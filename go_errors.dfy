/** Go's `error` values as the core uses them: sentinel errors compared by
    identity, `fmt.Errorf("...: %w", err)` wrapping, `errors.Is` and
    `errors.Join`. */
module GoErrors {
  import opened Wrappers

  /** A non-nil Go error. A package-level `errors.New` value is a `Sentinel`
      (identity is its name); an ad-hoc `errors.New`/`fmt.Errorf` without `%w`
      is a `Message`; `fmt.Errorf("msg: %w", inner)` is `Wrapped`;
      `errors.Join` of the non-nil arguments is `Joined`. */
  datatype Error =
    | Sentinel(name: string)
    | Message(text: string)
    | Wrapped(msg: string, inner: Error)
    | Joined(errs: seq<Error>)

  /** `errors.Is(e, target)`: `e` is the target or wraps or joins an error that is. */
  predicate Is(e: Error, target: Error)
    decreases e
  {
    e == target ||
    match e
    case Wrapped(_, inner) => Is(inner, target)
    case Joined(errs) => exists i | 0 <= i < |errs| :: Is(errs[i], target)
    case _ => false
  }

  /** `errors.Is` on a possibly-nil error: nil is never a non-nil target. */
  predicate IsErr(e: Option<Error>, target: Error) {
    e.Some? && Is(e.value, target)
  }

  /** The non-nil members of a list of possibly-nil errors, in order. */
  function Present(errs: seq<Option<Error>>): (r: seq<Error>)
    ensures |r| <= |errs|
  {
    if errs == [] then []
    else
      var last := errs[|errs| - 1];
      Present(errs[..|errs| - 1]) + (if last.Some? then [last.value] else [])
  }

  /** `errors.Join(a, b)`: nil when both are nil, otherwise a new join of the
      non-nil ones (even a single one is wrapped in a fresh join). */
  function Join(a: Option<Error>, b: Option<Error>): Option<Error> {
    match (a, b)
    case (None, None) => None
    case (Some(x), None) => Some(Joined([x]))
    case (None, Some(y)) => Some(Joined([y]))
    case (Some(x), Some(y)) => Some(Joined([x, y]))
  }

  /** The accumulation `err = errors.Join(err, e_i)` over a list, starting from nil. */
  function JoinAll(errs: seq<Option<Error>>): Option<Error> {
    if errs == [] then None
    else Join(JoinAll(errs[..|errs| - 1]), errs[|errs| - 1])
  }

  /** The leaf errors of an error tree: joins are flattened, anything else is a leaf. */
  function CausesOf(e: Error): seq<Error>
    decreases e, 1
  {
    if e.Joined? then CausesSeq(e.errs) else [e]
  }

  function CausesSeq(es: seq<Error>): seq<Error>
    decreases es, 0
  {
    if es == [] then [] else CausesOf(es[0]) + CausesSeq(es[1..])
  }

  function Causes(e: Option<Error>): seq<Error> {
    if e.None? then [] else CausesOf(e.value)
  }

  /** The accumulated error is nil exactly when every individual error is nil. */
  lemma {:induction false} JoinAllNilIff(errs: seq<Option<Error>>)
    ensures JoinAll(errs).None? <==> forall i | 0 <= i < |errs| :: errs[i].None?
  {
    if errs != [] {
      var prefix := errs[..|errs| - 1];
      JoinAllNilIff(prefix);
      assert forall i | 0 <= i < |prefix| :: prefix[i] == errs[i];
      assert errs == prefix + [errs[|errs| - 1]];
    }
  }

  /** When no individual error is itself a join, flattening the accumulated
      error gives back exactly the non-nil individual errors, in order. */
  lemma {:induction false} JoinAllCauses(errs: seq<Option<Error>>)
    requires forall i | 0 <= i < |errs| :: errs[i].Some? ==> !errs[i].value.Joined?
    ensures Causes(JoinAll(errs)) == Present(errs)
  {
    if errs != [] {
      var prefix := errs[..|errs| - 1];
      var last := errs[|errs| - 1];
      JoinAllCauses(prefix);
      var p := JoinAll(prefix);
      if p.Some? && last.Some? {
        assert [p.value, last.value][1..] == [last.value];
        assert CausesSeq([last.value]) == [last.value] + CausesSeq([]);
        assert JoinAll(errs) == Some(Joined([p.value, last.value]));
        assert CausesSeq([p.value, last.value]) == CausesOf(p.value) + CausesSeq([last.value]);
      } else if p.Some? {
        assert CausesSeq([p.value]) == CausesOf(p.value) + CausesSeq([]);
      } else if last.Some? {
        assert CausesSeq([last.value]) == [last.value] + CausesSeq([]);
      }
    }
  }

  /** `errors.Is` on the accumulated error holds exactly when it holds of one of
      the individual errors. */
  lemma {:induction false} JoinAllIs(errs: seq<Option<Error>>, target: Error)
    requires !target.Joined?
    ensures IsErr(JoinAll(errs), target) <==> exists i | 0 <= i < |errs| :: IsErr(errs[i], target)
  {
    if errs != [] {
      var prefix := errs[..|errs| - 1];
      var last := errs[|errs| - 1];
      JoinAllIs(prefix, target);
      assert forall i | 0 <= i < |prefix| :: prefix[i] == errs[i];
      var p := JoinAll(prefix);
      if p.Some? && last.Some? {
        var live := [p.value, last.value];
        assert Is(Joined(live), target) <==> Is(live[0], target) || Is(live[1], target);
      } else if p.Some? {
        assert Is(Joined([p.value]), target) <==> Is([p.value][0], target);
      } else if last.Some? {
        assert Is(Joined([last.value]), target) <==> Is([last.value][0], target);
      }
    }
  }

  /** The first non-nil error of a chain of guards checked in order, as a
      function of early returns `if cond { return err }` produces. */
  function FirstError(guards: seq<Option<Error>>): Option<Error> {
    FirstErrorFrom(guards, 0)
  }

  function FirstErrorFrom(guards: seq<Option<Error>>, i: nat): Option<Error>
    decreases |guards| - i
  {
    if i >= |guards| then None
    else if guards[i].Some? then guards[i]
    else FirstErrorFrom(guards, i + 1)
  }

  lemma {:induction false} FirstErrorFromNoneIff(guards: seq<Option<Error>>, i: nat)
    ensures FirstErrorFrom(guards, i).None? <==> forall j | i <= j < |guards| :: guards[j].None?
    decreases |guards| - i
  {
    if i < |guards| {
      FirstErrorFromNoneIff(guards, i + 1);
    }
  }

  /** A guard chain passes exactly when every guard passes. */
  lemma FirstErrorNoneIff(guards: seq<Option<Error>>)
    ensures FirstError(guards).None? <==> forall i | 0 <= i < |guards| :: guards[i].None?
  {
    FirstErrorFromNoneIff(guards, 0);
  }

  lemma {:induction false} FirstErrorFromIsFirst(guards: seq<Option<Error>>, i: nat, k: nat)
    requires i <= k < |guards| && guards[k].Some?
    requires forall j | i <= j < k :: guards[j].None?
    ensures FirstErrorFrom(guards, i) == guards[k]
    decreases k - i
  {
    if i < k {
      FirstErrorFromIsFirst(guards, i + 1, k);
    }
  }

  /** A failing guard chain reports the error of its first failing guard:
      every guard before it passed. */
  lemma FirstErrorIsFirst(guards: seq<Option<Error>>, k: nat)
    requires k < |guards| && guards[k].Some?
    requires forall j | 0 <= j < k :: guards[j].None?
    ensures FirstError(guards) == guards[k]
  {
    FirstErrorFromIsFirst(guards, 0, k);
  }

  /** `%d` of a non-negative integer: its decimal digits. */
  function Decimal(n: nat): (r: string)
    ensures |r| >= 1
    ensures forall i | 0 <= i < |r| :: '0' <= r[i] <= '9'
  {
    var d := ['0', '1', '2', '3', '4', '5', '6', '7', '8', '9'][n % 10];
    if n < 10 then [d] else Decimal(n / 10) + [d]
  }
}
