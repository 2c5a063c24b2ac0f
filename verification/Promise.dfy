/** `promise::all` of `include/hotstuff/promise.hpp`, in the build without a separate trigger stack.

    The members are promises named by their position in `members`; `list` names the ones that
    were passed to `all`, possibly with repetitions.  A callback that `all` registered with a
    member is modelled by the list position it was registered for. */
module Promises {
  import opened Options
  import opened Quorum

  datatype State<+T, +R> = Pending | Fulfilled(result: T) | Rejected(reason: R)

  /** The positions below `n` at which `list` names promise `p`. */
  function Positions(list: seq<nat>, p: nat, n: nat): seq<nat>
    requires n <= |list|
  {
    if n == 0 then []
    else if list[n - 1] == p then Positions(list, p, n - 1) + [n - 1]
    else Positions(list, p, n - 1)
  }

  lemma {:induction false} PositionsExact(list: seq<nat>, p: nat, n: nat)
    requires n <= |list|
    ensures forall i :: i in Positions(list, p, n) <==> 0 <= i < n && list[i] == p
    ensures forall j, k :: 0 <= j < k < |Positions(list, p, n)| ==>
              Positions(list, p, n)[j] != Positions(list, p, n)[k]
  {
    if n > 0 {
      PositionsExact(list, p, n - 1);
    }
  }

  predicate InRange<T, R>(list: seq<nat>, members: seq<State<T, R>>) {
    forall i :: 0 <= i < |list| ==> list[i] < |members|
  }

  /** Positions whose value has not arrived: not yet registered, or not fulfilled. */
  function Missing<T, R>(list: seq<nat>, members: seq<State<T, R>>, registered: nat): set<nat>
    requires InRange(list, members)
  {
    set i: nat | i < |list| && !(i < registered && members[list[i]].Fulfilled?)
  }

  /** `size` counts the missing values and `results` holds the others. */
  ghost predicate Tally<T(!new), R(!new)>(list: seq<nat>, members: seq<State<T, R>>, missing: set<nat>,
                                          size: nat, results: seq<Option<T>>)
    requires InRange(list, members)
  {
    && size == |missing| && |results| == |list|
    && forall i :: 0 <= i < |list| && i !in missing ==>
         members[list[i]].Fulfilled? && results[i] == Some(members[list[i]].result)
  }

  /** How the combined promise has settled, when the first `registered` positions count. */
  ghost predicate Settled<T(!new), R(!new)>(list: seq<nat>, members: seq<State<T, R>>, registered: nat,
                                            missing: set<nat>, results: seq<Option<T>>,
                                            outcome: State<seq<Option<T>>, R>)
    requires InRange(list, members) && registered <= |list|
  {
    && (outcome.Fulfilled? <==> missing == {})
    && (outcome.Fulfilled? ==> outcome.result == results)
    && (outcome.Rejected? <==> exists i :: 0 <= i < registered && members[list[i]].Rejected?)
    && (outcome.Rejected? ==> exists i :: 0 <= i < registered && members[list[i]] == Rejected(outcome.reason))
  }

  /** What `all` promises: it fulfils if and only if every member has, with the value of member
      `i` at position `i`, and rejects if and only if some member has, with that member's reason. */
  ghost predicate Combines<T(!new), R(!new)>(list: seq<nat>, members: seq<State<T, R>>,
                                             outcome: State<seq<Option<T>>, R>)
    requires InRange(list, members)
  {
    && (outcome.Fulfilled? <==> forall i :: 0 <= i < |list| ==> members[list[i]].Fulfilled?)
    && (outcome.Fulfilled? ==> |outcome.result| == |list|)
    && (outcome.Fulfilled? ==> forall i :: 0 <= i < |list| ==>
                                 outcome.result[i] == Some(members[list[i]].result))
    && (outcome.Rejected? <==> exists i :: 0 <= i < |list| && members[list[i]].Rejected?)
    && (outcome.Rejected? ==> exists i :: 0 <= i < |list| && members[list[i]] == Rejected(outcome.reason))
  }

  lemma SettledCombines<T(!new), R(!new)>(list: seq<nat>, members: seq<State<T, R>>, size: nat,
                                          results: seq<Option<T>>, outcome: State<seq<Option<T>>, R>)
    requires InRange(list, members)
    requires Tally(list, members, Missing(list, members, |list|), size, results)
    requires Settled(list, members, |list|, Missing(list, members, |list|), results, outcome)
    ensures Combines(list, members, outcome)
  {
  }

  class All<T(!new), R(!new)> {
    const list: seq<nat>
    var members: seq<State<T, R>>
    var callbacks: seq<seq<nat>>
    var size: nat
    var results: seq<Option<T>>
    var outcome: State<seq<Option<T>>, R>

    /** `all` has registered with the members at the first `registered` positions. */
    ghost predicate Registered(registered: nat)
      reads this
    {
      && registered <= |list| && InRange(list, members) && |callbacks| == |members|
      && (forall p :: 0 <= p < |members| && members[p].Pending? ==> callbacks[p] == Positions(list, p, registered))
      && Tally(list, members, Missing(list, members, registered), size, results)
      && Settled(list, members, registered, Missing(list, members, registered), results, outcome)
    }

    ghost predicate Valid()
      reads this
    {
      list != [] && Registered(|list|)
    }

    /** The callback for a fulfilled member. */
    method OnFulfilled(idx: nat, v: T)
      requires idx < |results| && size > 0
      modifies this`size, this`results, this`outcome
      ensures size == old(size) - 1 && results == old(results)[idx := Some(v)]
      ensures outcome == if size == 0 && old(outcome).Pending? then Fulfilled(results) else old(outcome)
    {
      results := results[idx := Some(v)];
      size := size - 1;
      if size == 0 && outcome.Pending? {
        outcome := Fulfilled(results);
      }
    }

    /** The callback for a rejected member. */
    method OnRejected(r: R)
      modifies this`outcome
      ensures outcome == if old(outcome).Pending? then Rejected(r) else old(outcome)
    {
      if outcome.Pending? {
        outcome := Rejected(r);
      }
    }

    /** `then` on one member: a settled member runs its callback at once. */
    method Register(idx: nat)
      requires idx < |list| && Registered(idx)
      modifies this`callbacks, this`size, this`results, this`outcome
      ensures Registered(idx + 1)
    {
      var p := list[idx];
      ghost var was, before := outcome, results;
      MissingNext(list, members, idx);
      match members[p]
      case Pending =>
        callbacks := callbacks[p := callbacks[p] + [idx]];
      case Fulfilled(v) =>
        OnFulfilled(idx, v);
      case Rejected(r) =>
        OnRejected(r);
      SettledNext(list, members, idx, before, was, results, outcome);
    }

    constructor (members: seq<State<T, R>>, list: seq<nat>)
      requires list != [] && InRange(list, members)
      ensures Valid() && this.list == list && this.members == members
      ensures Combines(list, members, outcome)
    {
      this.members, this.list := members, list;
      callbacks := seq(|members|, _ => []);
      size := |list|;
      results := seq(|list|, _ => None);
      outcome := Pending;
      new;
      assert 0 in Missing(list, members, 0);
      InitialTally(list, members, results);
      var idx := 0;
      while idx < |list|
        invariant idx <= |list| && this.list == list && this.members == members && Registered(idx)
      {
        Register(idx);
        idx := idx + 1;
      }
      SettledCombines(list, members, size, results, outcome);
    }

    static lemma InitialTally(list: seq<nat>, members: seq<State<T, R>>, results: seq<Option<T>>)
      requires InRange(list, members) && |results| == |list|
      ensures Tally(list, members, Missing(list, members, 0), |list|, results)
    {
      IdsSize(|list|);
      assert Missing(list, members, 0) == Ids(|list|);
    }

    /** The callbacks of a member that has just been fulfilled. */
    method RunFulfilled(cbs: seq<nat>, p: nat, v: T, ghost before: set<nat>)
      requires InRange(list, members) && p < |members| && members[p] == Fulfilled(v)
      requires Tally(list, members, before, size, results)
      requires forall k :: 0 <= k < |cbs| ==> cbs[k] in before && cbs[k] < |list| && list[cbs[k]] == p
      requires forall j, k :: 0 <= j < k < |cbs| ==> cbs[j] != cbs[k]
      requires outcome.Fulfilled? <==> before == {}
      requires outcome.Fulfilled? ==> outcome.result == results
      requires outcome.Rejected? ==> exists i :: i in before && i !in cbs
      modifies this`size, this`results, this`outcome
      ensures Tally(list, members, before - Elements(cbs), size, results)
      ensures outcome.Fulfilled? <==> before - Elements(cbs) == {}
      ensures outcome.Fulfilled? ==> outcome.result == results
      ensures !old(outcome).Pending? ==> outcome == old(outcome)
      ensures outcome.Rejected? ==> outcome == old(outcome)
    {
      ghost var left := before;
      for j := 0 to |cbs|
        invariant left <= before && (forall i :: i in before ==> i in left || i in cbs[..j])
        invariant (forall k :: 0 <= k < j ==> cbs[k] !in left) && (forall k :: j <= k < |cbs| ==> cbs[k] in left)
        invariant Tally(list, members, left, size, results)
        invariant outcome.Fulfilled? <==> left == {}
        invariant outcome.Fulfilled? ==> outcome.result == results
        invariant !old(outcome).Pending? ==> outcome == old(outcome)
        invariant outcome.Rejected? ==> outcome == old(outcome)
      {
        OnFulfilled(cbs[j], v);
        left := left - {cbs[j]};
      }
      assert left == before - Elements(cbs);
    }

    /** A member is fulfilled: its callbacks run, unless it was settled before. */
    method Resolve(p: nat, v: T)
      requires Valid() && p < |members|
      modifies this`members, this`callbacks, this`size, this`results, this`outcome
      ensures Valid() && Combines(list, members, outcome)
      ensures members == if old(members)[p].Pending? then old(members)[p := Fulfilled(v)] else old(members)
      ensures !old(outcome).Pending? ==> outcome == old(outcome)
    {
      if members[p].Pending? {
        ghost var before := Missing(list, members, |list|);
        ghost var was, members0 := outcome, members;
        PositionsExact(list, p, |list|);
        var cbs := callbacks[p];
        FulfillFrame(list, members, p, v, cbs);
        RejectedElsewhere(list, members, p, cbs, results, outcome);
        TallyKept(list, members, p, v, before, size, results);
        members := members[p := Fulfilled(v)];
        RunFulfilled(cbs, p, v, before);
        FulfillSettles(list, members0, p, v, cbs, was, results, outcome);
        callbacks := callbacks[p := []];
      }
      SettledCombines(list, members, size, results, outcome);
    }

    /** A member is rejected: the combined promise rejects at once, unless it has settled. */
    method Reject(p: nat, r: R)
      requires Valid() && p < |members|
      modifies this`members, this`callbacks, this`outcome
      ensures Valid() && Combines(list, members, outcome)
      ensures members == if old(members)[p].Pending? then old(members)[p := Rejected(r)] else old(members)
      ensures !old(outcome).Pending? ==> outcome == old(outcome)
      ensures old(outcome).Pending? && old(members)[p].Pending? && p in list ==> outcome == Rejected(r)
    {
      if members[p].Pending? {
        ghost var was := outcome;
        PositionsExact(list, p, |list|);
        var cbs := callbacks[p];
        for j := 0 to |cbs|
          modifies this`outcome
          invariant outcome == if j > 0 && was.Pending? then Rejected(r) else was
        {
          OnRejected(r);
        }
        RejectFrame(list, members, p, r, cbs, results, was);
        members := members[p := Rejected(r)];
        callbacks := callbacks[p := []];
      }
      SettledCombines(list, members, size, results, outcome);
    }
  }

  lemma MissingNext<T, R>(list: seq<nat>, members: seq<State<T, R>>, idx: nat)
    requires InRange(list, members) && idx < |list|
    ensures idx in Missing(list, members, idx)
    ensures Missing(list, members, idx + 1) ==
              if members[list[idx]].Fulfilled? then Missing(list, members, idx) - {idx} else Missing(list, members, idx)
  {
  }

  /** A fulfilled member settles the combined promise if it was the last one missing, a rejected
      member if no other was rejected before. */
  lemma SettledNext<T(!new), R(!new)>(list: seq<nat>, members: seq<State<T, R>>, idx: nat,
                                      results: seq<Option<T>>, was: State<seq<Option<T>>, R>,
                                      results': seq<Option<T>>, outcome: State<seq<Option<T>>, R>)
    requires InRange(list, members) && idx < |list|
    requires Settled(list, members, idx, Missing(list, members, idx), results, was)
    requires outcome == match members[list[idx]]
                        case Pending => was
                        case Fulfilled(_) =>
                          if Missing(list, members, idx + 1) == {} && was.Pending? then Fulfilled(results') else was
                        case Rejected(r) => if was.Pending? then Rejected(r) else was
    ensures Settled(list, members, idx + 1, Missing(list, members, idx + 1), results', outcome)
  {
    MissingNext(list, members, idx);
    if was.Rejected? {
      var i :| 0 <= i < idx && members[list[i]] == Rejected(was.reason);
      assert i in Missing(list, members, idx + 1);
    }
  }

  function Elements(s: seq<nat>): set<nat> {
    set i | i in s
  }

  /** The callbacks of a pending member are those of missing positions. */
  lemma FulfillFrame<T(!new), R(!new)>(list: seq<nat>, members: seq<State<T, R>>, p: nat, v: T, cbs: seq<nat>)
    requires InRange(list, members) && p < |members| && members[p].Pending?
    requires forall i :: i in cbs <==> 0 <= i < |list| && list[i] == p
    ensures Missing(list, members[p := Fulfilled(v)], |list|) == Missing(list, members, |list|) - Elements(cbs)
    ensures forall k :: 0 <= k < |cbs| ==>
              cbs[k] in Missing(list, members, |list|) && cbs[k] < |list| && list[cbs[k]] == p
  {
    forall k | 0 <= k < |cbs|
      ensures cbs[k] in Missing(list, members, |list|) && cbs[k] < |list| && list[cbs[k]] == p
    {
      assert cbs[k] in cbs;
    }
  }

  /** A rejected member is not the pending one, so its position stays missing. */
  lemma RejectedElsewhere<T(!new), R(!new)>(list: seq<nat>, members: seq<State<T, R>>, p: nat, cbs: seq<nat>,
                                            results: seq<Option<T>>, outcome: State<seq<Option<T>>, R>)
    requires InRange(list, members) && p < |members| && members[p].Pending?
    requires forall i :: i in cbs <==> 0 <= i < |list| && list[i] == p
    requires Settled(list, members, |list|, Missing(list, members, |list|), results, outcome)
    ensures outcome.Rejected? ==> exists i :: i in Missing(list, members, |list|) && i !in cbs
  {
  }

  lemma TallyKept<T(!new), R(!new)>(list: seq<nat>, members: seq<State<T, R>>, p: nat, v: T,
                                    missing: set<nat>, size: nat, results: seq<Option<T>>)
    requires InRange(list, members) && p < |members| && members[p].Pending?
    requires Tally(list, members, missing, size, results)
    ensures Tally(list, members[p := Fulfilled(v)], missing, size, results)
  {
  }

  /** The combined promise is settled as it should be once the callbacks have run. */
  lemma FulfillSettles<T(!new), R(!new)>(list: seq<nat>, members: seq<State<T, R>>, p: nat, v: T, cbs: seq<nat>,
                                         was: State<seq<Option<T>>, R>,
                                         results: seq<Option<T>>, outcome: State<seq<Option<T>>, R>)
    requires InRange(list, members) && p < |members| && members[p].Pending?
    requires was.Rejected? <==> exists i :: 0 <= i < |list| && members[list[i]].Rejected?
    requires was.Rejected? ==> exists i :: 0 <= i < |list| && members[list[i]] == Rejected(was.reason)
    requires outcome.Fulfilled? <==> Missing(list, members, |list|) - Elements(cbs) == {}
    requires outcome.Fulfilled? ==> outcome.result == results
    requires outcome.Rejected? ==> outcome == was
    requires !was.Pending? ==> outcome == was
    requires Missing(list, members[p := Fulfilled(v)], |list|) == Missing(list, members, |list|) - Elements(cbs)
    ensures var members' := members[p := Fulfilled(v)];
            Settled(list, members', |list|, Missing(list, members', |list|), results, outcome)
  {
  }

  /** Rejecting a pending member settles the combined promise, if it was pending and listens to it. */
  lemma RejectFrame<T(!new), R(!new)>(list: seq<nat>, members: seq<State<T, R>>, p: nat, r: R,
                                      cbs: seq<nat>, results: seq<Option<T>>, was: State<seq<Option<T>>, R>)
    requires InRange(list, members) && p < |members| && members[p].Pending?
    requires forall i :: i in cbs <==> 0 <= i < |list| && list[i] == p
    requires Settled(list, members, |list|, Missing(list, members, |list|), results, was)
    ensures var members' := members[p := Rejected(r)];
            var outcome := if |cbs| > 0 && was.Pending? then Rejected(r) else was;
            && Missing(list, members', |list|) == Missing(list, members, |list|)
            && Settled(list, members', |list|, Missing(list, members', |list|), results, outcome)
  {
    var members' := members[p := Rejected(r)];
    if |cbs| > 0 {
      assert cbs[0] in cbs && members'[list[cbs[0]]] == Rejected(r);
      assert cbs[0] in Missing(list, members, |list|);
    }
    if was.Rejected? {
      var i :| 0 <= i < |list| && members[list[i]] == Rejected(was.reason);
      assert members'[list[i]] == Rejected(was.reason);
    }
    forall i | 0 <= i < |list| && members'[list[i]].Rejected?
      ensures members[list[i]].Rejected? || (i in cbs && list[i] == p)
    {
    }
  }
}
