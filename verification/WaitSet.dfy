/**
 A wait set: dispatchers that are waited for, a queue of those that were woken, and a list of those
 that were handed out by the last call and are waited for again by the next.
 */
module WaitSets {
  import opened PortState

  /** A dispatcher, by its address. */
  type Id = nat

  /** What a dispatcher says when it is asked to be waited for. */
  datatype Answer = Armed | AlreadyExists | Hopeless | Closed

  datatype WakeResult = Ok | FailedPrecondition | Cancelled

  datatype WaitState = WaitState(signals: nat, context: nat)

  datatype Outcome = Success | InvalidArgument | AlreadyAdded | NotFound | ShouldWait

  datatype Ready = Ready(id: Id, result: WakeResult, context: nat)

  type Queue = seq<(Id, WakeResult)>

  /** `armed` are the dispatchers that will call back. */
  datatype Sets = Sets(waiting: map<Id, WaitState>, armed: set<Id>, awoken: Queue, processed: seq<Id>)

  function Ids(q: Queue): seq<Id> {
    seq(|q|, i requires 0 <= i < |q| => q[i].0)
  }

  /** The dispatchers of a set are those that are armed, those in the queue and those handed out,
      each counted once: nothing is in two places, or twice in one, and nothing else is anywhere. */
  ghost predicate OnePlace(s: Sets) {
    multiset(s.waiting.Keys) == multiset(s.armed) + multiset(Ids(s.awoken)) + multiset(s.processed)
  }

  /** So a dispatcher of the set is armed, or once in the queue, or once among those handed out. */
  lemma ExactlyOnePlace(s: Sets, d: Id)
    requires OnePlace(s)
    ensures (if d in s.armed then 1 else 0) + multiset(Ids(s.awoken))[d] + multiset(s.processed)[d] ==
            if d in s.waiting then 1 else 0
  {
    assert multiset(s.waiting.Keys)[d] == if d in s.waiting then 1 else 0;
  }

  // ----- The operations on values -----

  function Woken(s: Sets, d: Id, result: WakeResult): Sets {
    s.(awoken := s.awoken + [(d, result)])
  }

  /** Waits for d again, or for the first time. */
  function Arm(s: Sets, d: Id, answer: Answer): Sets {
    match answer
    case Armed => s.(armed := s.armed + {d})
    case AlreadyExists => Woken(s, d, Ok)
    case Hopeless => Woken(s, d, FailedPrecondition)
    case Closed => s.(waiting := s.waiting - {d})
  }

  function Rearm(s: Sets, pending: seq<Id>, answers: Id -> Answer): Sets
    decreases |pending|
  {
    if pending == [] then s else Rearm(Arm(s, pending[0], answers(pending[0])), pending[1..], answers)
  }

  /** Hands out the front of the queue. */
  function HandOut(s: Sets): (Sets, Ready)
    requires s.awoken != [] && s.awoken[0].0 in s.waiting
  {
    var (d, result) := s.awoken[0];
    var t := s.(awoken := s.awoken[1..]);
    (if result.Cancelled? then t.(waiting := t.waiting - {d}) else t.(processed := t.processed + [d]),
     Ready(d, result, s.waiting[d].context))
  }

  function Take(s: Sets, count: nat): (Sets, seq<Ready>)
    decreases count
  {
    if count == 0 || s.awoken == [] || s.awoken[0].0 !in s.waiting then (s, []) else
    var (t, r) := HandOut(s);
    var (u, rs) := Take(t, count - 1);
    (u, [r] + rs)
  }

  function GetReady(s: Sets, count: nat, answers: Id -> Answer): (Sets, seq<Ready>) {
    Take(Rearm(s.(processed := []), s.processed, answers), count)
  }

  function Without(q: Queue, d: Id): Queue {
    if q == [] then [] else if q[0].0 == d then Without(q[1..], d) else [q[0]] + Without(q[1..], d)
  }

  function WithoutId(ds: seq<Id>, d: Id): seq<Id> {
    if ds == [] then [] else if ds[0] == d then WithoutId(ds[1..], d) else [ds[0]] + WithoutId(ds[1..], d)
  }

  function Removed(s: Sets, d: Id): Sets {
    Sets(s.waiting - {d}, s.armed - {d}, Without(s.awoken, d), WithoutId(s.processed, d))
  }

  // ----- Everything stays in one place -----

  /** The same, while the dispatchers in `out` are between places. */
  ghost predicate OnePlaceBut(s: Sets, out: seq<Id>) {
    multiset(s.waiting.Keys) == multiset(s.armed) + multiset(Ids(s.awoken)) + multiset(s.processed) + multiset(out)
  }

  lemma IdsLast(q: Queue, d: Id, result: WakeResult)
    ensures multiset(Ids(q + [(d, result)])) == multiset(Ids(q)) + multiset{d}
  {
    assert Ids(q + [(d, result)]) == Ids(q) + [d];
  }

  lemma IdsFirst(q: Queue)
    requires q != []
    ensures multiset(Ids(q)) == multiset{q[0].0} + multiset(Ids(q[1..]))
  {
    assert Ids(q) == [q[0].0] + Ids(q[1..]);
  }

  lemma ArmKeeps(s: Sets, d: Id, out: seq<Id>, answer: Answer)
    requires OnePlaceBut(s, [d] + out)
    ensures OnePlaceBut(Arm(s, d, answer), out)
  {
    assert multiset([d] + out) == multiset{d} + multiset(out);
    assert multiset(s.waiting.Keys)[d] > 0 && d in s.waiting && multiset(s.waiting.Keys)[d] == 1;
    assert d !in s.armed by { assert multiset(s.armed)[d] == 0; }
    match answer {
      case Armed => assert multiset(s.armed + {d}) == multiset(s.armed) + multiset{d};
      case AlreadyExists => IdsLast(s.awoken, d, Ok);
      case Hopeless => IdsLast(s.awoken, d, FailedPrecondition);
      case Closed =>
        assert (s.waiting - {d}).Keys == s.waiting.Keys - {d};
        assert multiset(s.waiting.Keys - {d}) == multiset(s.waiting.Keys) - multiset{d};
    }
  }

  lemma {:induction false} RearmKeeps(s: Sets, pending: seq<Id>, answers: Id -> Answer)
    requires OnePlaceBut(s, pending)
    ensures OnePlaceBut(Rearm(s, pending, answers), [])
    decreases |pending|
  {
    if pending != [] {
      assert pending == [pending[0]] + pending[1..];
      ArmKeeps(s, pending[0], pending[1..], answers(pending[0]));
      RearmKeeps(Arm(s, pending[0], answers(pending[0])), pending[1..], answers);
    }
  }

  lemma HandOutKeeps(s: Sets)
    requires OnePlace(s) && s.awoken != []
    ensures s.awoken[0].0 in s.waiting && OnePlace(HandOut(s).0)
  {
    var d, t := s.awoken[0].0, s.awoken[1..];
    IdsFirst(s.awoken);
    assert multiset(s.waiting.Keys)[d] > 0 && d in s.waiting && multiset(s.waiting.Keys)[d] == 1;
    if s.awoken[0].1.Cancelled? {
      assert (s.waiting - {d}).Keys == s.waiting.Keys - {d};
      assert multiset(s.waiting.Keys - {d}) == multiset(s.waiting.Keys) - multiset{d};
    }
  }

  lemma {:induction false} TakeKeeps(s: Sets, count: nat)
    requires OnePlace(s)
    ensures OnePlace(Take(s, count).0)
    decreases count
  {
    if count > 0 && s.awoken != [] {
      HandOutKeeps(s);
      TakeKeeps(HandOut(s).0, count - 1);
    }
  }

  lemma RequeuedKeeps(s: Sets, answers: Id -> Answer)
    requires OnePlace(s)
    ensures OnePlace(Rearm(s.(processed := []), s.processed, answers))
  {
    RearmKeeps(s.(processed := []), s.processed, answers);
  }

  lemma GetReadyKeeps(s: Sets, count: nat, answers: Id -> Answer)
    requires OnePlace(s)
    ensures OnePlace(GetReady(s, count, answers).0)
  {
    RequeuedKeeps(s, answers);
    TakeKeeps(Rearm(s.(processed := []), s.processed, answers), count);
  }

  lemma {:induction false} WithoutIdCounts(ds: seq<Id>, d: Id)
    ensures multiset(WithoutId(ds, d)) == multiset(ds)[d := 0]
    decreases |ds|
  {
    if ds != [] {
      WithoutIdCounts(ds[1..], d);
      assert ds == [ds[0]] + ds[1..];
    }
  }

  lemma {:induction false} WithoutIsWithoutId(q: Queue, d: Id)
    ensures Ids(Without(q, d)) == WithoutId(Ids(q), d)
    decreases |q|
  {
    if q != [] {
      WithoutIsWithoutId(q[1..], d);
      assert Ids(q)[1..] == Ids(q[1..]);
      if q[0].0 != d { assert Ids([q[0]] + Without(q[1..], d)) == [q[0].0] + Ids(Without(q[1..], d)); }
    }
  }

  lemma RemovedKeeps(s: Sets, d: Id)
    requires OnePlace(s)
    ensures OnePlace(Removed(s, d)) && d !in Removed(s, d).waiting
  {
    WithoutIsWithoutId(s.awoken, d);
    WithoutIdCounts(Ids(s.awoken), d);
    WithoutIdCounts(s.processed, d);
    assert (s.waiting - {d}).Keys == s.waiting.Keys - {d};
    assert multiset(s.waiting.Keys - {d}) == multiset(s.waiting.Keys)[d := 0];
    assert multiset(s.armed - {d}) == multiset(s.armed)[d := 0];
  }

  // ----- Nobody waits for ever -----

  datatype Op =
    | Add(id: Id, state: WaitState, answer: Answer)
    | Remove(id: Id)
    | Wake(id: Id, result: WakeResult)
    | Get(count: nat, answers: Id -> Answer)

  /** What one operation does, and what it hands out. */
  function Apply(s: Sets, op: Op): (Sets, seq<Ready>) {
    match op
    case Add(d, state, answer) =>
      if d in s.waiting || answer.Closed? then (s, []) else (Arm(s.(waiting := s.waiting[d := state]), d, answer), [])
    case Remove(d) => if d in s.waiting then (Removed(s, d), []) else (s, [])
    case Wake(d, result) => if d in s.armed then (Woken(s.(armed := s.armed - {d}), d, result), []) else (s, [])
    case Get(count, answers) => GetReady(s, count, answers)
  }

  lemma ApplyKeeps(s: Sets, op: Op)
    requires OnePlace(s)
    ensures OnePlace(Apply(s, op).0)
  {
    match op {
      case Add(d, state, answer) =>
        if d !in s.waiting && !answer.Closed? { AddKeeps(s, d, state, answer); }
      case Remove(d) => RemovedKeeps(s, d);
      case Wake(d, result) =>
        if d in s.armed { WakeKeeps(s, d, result); }
      case Get(count, answers) => GetReadyKeeps(s, count, answers);
    }
  }

  lemma AddKeeps(s: Sets, d: Id, state: WaitState, answer: Answer)
    requires OnePlace(s) && d !in s.waiting && !answer.Closed?
    ensures OnePlace(Arm(s.(waiting := s.waiting[d := state]), d, answer))
  {
    var t := s.(waiting := s.waiting[d := state]);
    assert t.waiting.Keys == s.waiting.Keys + {d};
    assert multiset(t.waiting.Keys) == multiset(s.waiting.Keys) + multiset{d};
    assert multiset([d] + []) == multiset{d};
    ArmKeeps(t, d, [], answer);
  }

  lemma WakeKeeps(s: Sets, d: Id, result: WakeResult)
    requires OnePlace(s) && d in s.armed
    ensures OnePlace(Woken(s.(armed := s.armed - {d}), d, result))
  {
    IdsLast(s.awoken, d, result);
    assert multiset(s.armed - {d}) == multiset(s.armed) - multiset{d};
  }

  function After(s: Sets, ops: seq<Op>): Sets
    decreases |ops|
  {
    if ops == [] then s else After(Apply(s, ops[0]).0, ops[1..])
  }

  lemma {:induction false} EveryRun(s: Sets, ops: seq<Op>)
    requires OnePlace(s)
    ensures OnePlace(After(s, ops))
    decreases |ops|
  {
    if ops != [] {
      ApplyKeeps(s, ops[0]);
      EveryRun(Apply(s, ops[0]).0, ops[1..]);
    }
  }

  /** How many calls in a run ask for at least one dispatcher. */
  function Calls(ops: seq<Op>): nat {
    if ops == [] then 0 else (if ops[0].Get? && ops[0].count > 0 then 1 else 0) + Calls(ops[1..])
  }

  ghost predicate Removes(ops: seq<Op>, d: Id) { Remove(d) in ops }

  /** A call reports r, and nothing else of that dispatcher. */
  ghost predicate Reports(rs: seq<Ready>, r: Ready) {
    r in rs && forall x :: x in rs && x.id == r.id ==> x == r
  }

  ghost predicate Silent(rs: seq<Ready>, d: Id) {
    forall x :: x in rs ==> x.id != d
  }

  /** The next that the run hands out of that dispatcher is r. */
  ghost predicate NextIs(s: Sets, ops: seq<Op>, r: Ready)
    decreases |ops|
  {
    ops != [] &&
    var (t, rs) := Apply(s, ops[0]);
    if Silent(rs, r.id) then NextIs(t, ops[1..], r) else Reports(rs, r)
  }

  /** Entry k of the queue. */
  predicate QueuedAt(s: Sets, k: nat, d: Id, result: WakeResult) {
    k < |s.awoken| && s.awoken[k] == (d, result)
  }

  /** What is to be handed out for d: the result it was woken with, and the context it was added with. */
  function Due(s: Sets, d: Id, result: WakeResult): Ready
    requires d in s.waiting
  {
    Ready(d, result, s.waiting[d].context)
  }

  /** What the dispatchers that were handed out last say when they are asked again. */
  function Requeued(pending: seq<Id>, answers: Id -> Answer): Queue {
    if pending == [] then [] else
    var d := pending[0];
    (match answers(d)
     case AlreadyExists => [(d, Ok)]
     case Hopeless => [(d, FailedPrecondition)]
     case _ => []) + Requeued(pending[1..], answers)
  }

  lemma {:induction false} RequeuedHas(pending: seq<Id>, answers: Id -> Answer, d: Id, result: WakeResult)
    ensures (d, result) in Requeued(pending, answers) <==>
            d in pending && ((answers(d).AlreadyExists? && result.Ok?) ||
                             (answers(d).Hopeless? && result.FailedPrecondition?))
    decreases |pending|
  {
    if pending != [] { RequeuedHas(pending[1..], answers, d, result); }
  }

  lemma {:induction false} RearmGives(s: Sets, pending: seq<Id>, answers: Id -> Answer)
    ensures var t := Rearm(s, pending, answers);
            t.awoken == s.awoken + Requeued(pending, answers) && t.processed == s.processed
    ensures forall d :: d in Rearm(s, pending, answers).armed <==>
                        d in s.armed || (d in pending && answers(d).Armed?)
    ensures Rearm(s, pending, answers).waiting == s.waiting - (set d | d in pending && answers(d).Closed?)
    decreases |pending|
  {
    if pending != [] {
      var d, rest := pending[0], pending[1..];
      var t := Arm(s, d, answers(d));
      RearmGives(t, rest, answers);
      assert t.awoken + Requeued(rest, answers) == s.awoken + Requeued(pending, answers);
      assert (set e | e in pending && answers(e).Closed?) ==
             (set e | e in rest && answers(e).Closed?) + if answers(d).Closed? then {d} else {};
    }
  }

  /** The dispatchers that stay in the set when they are handed out, in order. */
  function Kept(q: Queue): seq<Id> {
    if q == [] then [] else (if q[0].1.Cancelled? then [] else [q[0].0]) + Kept(q[1..])
  }

  /** Those that leave it. */
  function Gone(q: Queue): set<Id> {
    set e | e in q && e.1.Cancelled? :: e.0
  }

  lemma OneMoreKept(e: (Id, WakeResult), q: Queue)
    ensures Kept([e] + q) == (if e.1.Cancelled? then [] else [e.0]) + Kept(q)
    ensures Gone([e] + q) == (if e.1.Cancelled? then {e.0} else {}) + Gone(q)
  {
    assert ([e] + q)[1..] == q;
  }

  lemma {:induction false} TakeGives(s: Sets, count: nat)
    requires OnePlace(s)
    ensures var (t, rs) := Take(s, count);
            |rs| == (if count < |s.awoken| then count else |s.awoken|) && t.awoken == s.awoken[|rs|..] &&
            t.processed == s.processed + Kept(s.awoken[..|rs|]) && t.armed == s.armed &&
            t.waiting == s.waiting - Gone(s.awoken[..|rs|])
    decreases count
  {
    hide Kept, Gone, OnePlace;
    if count == 0 || s.awoken == [] {
      NoneKept(s);
    } else {
      HandOutKeeps(s);
      var t, e := HandOut(s).0, s.awoken[0];
      TakeGives(t, count - 1);
      var n := |Take(t, count - 1).1|;
      assert s.awoken[..n + 1] == [e] + t.awoken[..n];
      OneMoreKept(e, t.awoken[..n]);
      KeptJoins(s.processed, e, Kept(t.awoken[..n]));
      GoneJoins(s.waiting, e, Gone(t.awoken[..n]));
    }
  }

  lemma NoneKept(s: Sets)
    ensures s.processed == s.processed + Kept([]) && s.waiting == s.waiting - Gone([])
  {
  }

  lemma KeptJoins(ds: seq<Id>, e: (Id, WakeResult), kept: seq<Id>)
    ensures ds + [e.0] + kept == ds + ([e.0] + kept) && ds + ([] + kept) == ds + kept
  {
  }

  lemma GoneJoins(waiting: map<Id, WaitState>, e: (Id, WakeResult), gone: set<Id>)
    ensures waiting - {e.0} - gone == waiting - ({e.0} + gone) && waiting - ({} + gone) == waiting - gone
  {
    assert {} + gone == gone;
  }

  /** The first `count` of the queue are handed out in order, each with the result it was woken with
      and the context it was added with; the others move up by `count`. */
  lemma {:induction false} TakeReaches(s: Sets, count: nat, k: nat, d: Id, result: WakeResult)
    requires OnePlace(s) && QueuedAt(s, k, d, result)
    ensures d in s.waiting
    ensures var (t, rs) := Take(s, count);
            if k < count then k < |rs| && rs[k] == Due(s, d, result) else QueuedAt(t, k - count, d, result)
    decreases k
  {
    hide OnePlace;
    InTheSet(s, k);
    if count > 0 {
      HandOutKeeps(s);
      if k > 0 { TakeReaches(HandOut(s).0, count - 1, k - 1, d, result); }
    }
  }

  lemma InTheSet(s: Sets, k: nat)
    requires OnePlace(s) && k < |s.awoken|
    ensures s.awoken[k].0 in s.waiting
  {
    assert Ids(s.awoken)[k] in multiset(Ids(s.awoken));
    assert s.awoken[k].0 in multiset(s.waiting.Keys);
  }

  /** No dispatcher is twice in the queue. */
  lemma OnceInTheQueue(s: Sets, i: nat, j: nat)
    requires OnePlace(s) && i < j < |s.awoken|
    ensures s.awoken[i].0 != s.awoken[j].0
  {
    var ids, d := Ids(s.awoken), s.awoken[i].0;
    assert ids == ids[..i] + [ids[i]] + ids[i + 1..j] + [ids[j]] + ids[j + 1..];
    assert multiset(s.waiting.Keys)[d] <= 1;
    assert multiset(ids)[d] <= 1;
  }

  /** A call hands out the front of the queue, behind which it has put those of the last call that
      have something to report.  Each goes out with its result and with the context it was added
      with; one that was cancelled leaves the set, and the others are asked again by the next call. */
  lemma GetGives(s: Sets, count: nat, answers: Id -> Answer)
    requires OnePlace(s)
    ensures var (t, rs) := GetReady(s, count, answers);
            var q := s.awoken + Requeued(s.processed, answers);
            |rs| == (if count < |q| then count else |q|) && t.awoken == q[|rs|..] && t.processed == Kept(q[..|rs|]) &&
            (forall i :: 0 <= i < |rs| ==> q[i].0 in s.waiting && rs[i] == Due(s, q[i].0, q[i].1)) &&
            (forall d :: d in t.armed <==> d in s.armed || (d in s.processed && answers(d).Armed?)) &&
            (forall d :: d in t.waiting <==>
               d in s.waiting && !(d in s.processed && answers(d).Closed?) && (d, Cancelled) !in q[..|rs|]) &&
            (forall d :: d in t.waiting ==> t.waiting[d] == s.waiting[d])
  {
    var u := Rearm(s.(processed := []), s.processed, answers);
    RearmGives(s.(processed := []), s.processed, answers);
    RequeuedKeeps(s, answers);
    TakeGives(u, count);
    var rs := Take(u, count).1;
    forall i | 0 <= i < |rs| ensures u.awoken[i].0 in s.waiting && rs[i] == Due(s, u.awoken[i].0, u.awoken[i].1) {
      TakeReaches(u, count, i, u.awoken[i].0, u.awoken[i].1);
    }
  }

  lemma {:induction false} KeptHas(q: Queue, d: Id, result: WakeResult)
    requires (d, result) in q && !result.Cancelled?
    ensures d in Kept(q)
    decreases |q|
  {
    if q[0] != (d, result) { KeptHas(q[1..], d, result); }
  }

  /** What a call reports as cancelled has left the set; any other that it reports is still in it, and
      is among those that the next call asks again. */
  lemma HandedOutStays(s: Sets, count: nat, answers: Id -> Answer, r: Ready)
    requires OnePlace(s) && r in GetReady(s, count, answers).1
    ensures var t := GetReady(s, count, answers).0;
            if r.result.Cancelled? then r.id !in t.waiting else r.id in t.processed && r.id in t.waiting
  {
    var (t, rs) := GetReady(s, count, answers);
    GetGives(s, count, answers);
    GetReadyKeeps(s, count, answers);
    var q := (s.awoken + Requeued(s.processed, answers))[..|rs|];
    assert (r.id, r.result) in q;
    if !r.result.Cancelled? {
      KeptHas(q, r.id, r.result);
      assert r.id in multiset(t.processed) && r.id in multiset(t.waiting.Keys);
    }
  }

  lemma ReportsOnce(s: Sets, rs: seq<Ready>, k: nat, d: Id)
    requires OnePlace(s) && k < |s.awoken| && s.awoken[k].0 == d && |rs| <= |s.awoken|
    requires forall i :: 0 <= i < |rs| ==> rs[i].id == s.awoken[i].0
    ensures if k < |rs| then Reports(rs, rs[k]) else Silent(rs, d)
  {
    forall i | 0 <= i < |rs| && i != k ensures rs[i].id != d {
      if i < k { OnceInTheQueue(s, i, k); } else { OnceInTheQueue(s, k, i); }
    }
  }

  /** One call, for an entry of the queue that it has built: it is reported, or moves up. */
  lemma GetReaches(s: Sets, count: nat, answers: Id -> Answer, k: nat, d: Id, result: WakeResult)
    requires OnePlace(s)
    requires QueuedAt(Rearm(s.(processed := []), s.processed, answers), k, d, result)
    ensures d in s.waiting
    ensures var (t, rs) := GetReady(s, count, answers);
            if k < count then Reports(rs, Due(s, d, result))
            else Silent(rs, d) && QueuedAt(t, k - count, d, result) && d in t.waiting
  {
    hide OnePlace, Take, Rearm, Reports, Silent;
    var u := Rearm(s.(processed := []), s.processed, answers);
    RearmGives(s.(processed := []), s.processed, answers);
    RequeuedKeeps(s, answers);
    InTheSet(u, k);
    GetGives(s, count, answers);
    ReportsOnce(u, GetReady(s, count, answers).1, k, d);
    TakeReaches(u, count, k, d, result);
    if k >= count {
      GetReadyKeeps(s, count, answers);
      InTheSet(GetReady(s, count, answers).0, k - count);
    }
  }

  lemma InQueue(q: Queue, e: (Id, WakeResult)) returns (k: nat)
    requires e in q
    ensures k < |q| && q[k] == e
  {
    k :| 0 <= k < |q| && q[k] == e;
  }

  /** What the next call does with a dispatcher that was handed out: it asks it again. */
  lemma AskedAgain(s: Sets, count: nat, answers: Id -> Answer, d: Id)
    requires OnePlace(s) && d in s.processed
    ensures d in s.waiting
    ensures var (t, rs) := GetReady(s, count, answers);
            match answers(d)
            case Closed => Silent(rs, d) && d !in t.waiting
            case Armed => Silent(rs, d) && d in t.armed && d in t.waiting
            case AlreadyExists => Reports(rs, Due(s, d, Ok)) || (Silent(rs, d) && (d, Ok) in t.awoken)
            case Hopeless => Reports(rs, Due(s, d, FailedPrecondition)) ||
                             (Silent(rs, d) && (d, FailedPrecondition) in t.awoken)
  {
    hide OnePlace, GetReady, Rearm, Requeued;
    var q := s.awoken + Requeued(s.processed, answers);
    GetGives(s, count, answers);
    ProcessedIsThere(s, d);
    RearmGives(s.(processed := []), s.processed, answers);
    RequeuedHas(s.processed, answers, d, Ok);
    RequeuedHas(s.processed, answers, d, FailedPrecondition);
    RequeuedHas(s.processed, answers, d, Cancelled);
    if answers(d).AlreadyExists? || answers(d).Hopeless? {
      var result := if answers(d).AlreadyExists? then Ok else FailedPrecondition;
      var k := InQueue(q, (d, result));
      GetReaches(s, count, answers, k, d, result);
    } else {
      NotInTheQueue(s, answers, d);
    }
  }

  lemma ProcessedIsThere(s: Sets, d: Id)
    requires OnePlace(s) && d in s.processed
    ensures d in s.waiting
  {
    assert d in multiset(s.processed) && d in multiset(s.waiting.Keys);
  }

  /** One that has nothing to report is not in the queue that the next call builds. */
  lemma NotInTheQueue(s: Sets, answers: Id -> Answer, d: Id)
    requires OnePlace(s) && d in s.processed && !answers(d).AlreadyExists? && !answers(d).Hopeless?
    ensures forall e :: e in s.awoken + Requeued(s.processed, answers) ==> e.0 != d
  {
    assert multiset(s.processed)[d] >= 1 && multiset(s.waiting.Keys)[d] <= 1;
    assert multiset(Ids(s.awoken))[d] == 0;
    forall e | e in s.awoken + Requeued(s.processed, answers) ensures e.0 != d {
      if e in s.awoken {
        var i :| 0 <= i < |s.awoken| && s.awoken[i] == e;
        assert Ids(s.awoken)[i] in multiset(Ids(s.awoken));
      } else {
        RequeuedHas(s.processed, answers, e.0, e.1);
      }
    }
  }

  lemma {:induction false} WithoutMovesUp(q: Queue, e: Id, k: nat) returns (k': nat)
    requires k < |q| && q[k].0 != e
    ensures k' <= k && k' < |Without(q, e)| && Without(q, e)[k'] == q[k]
    decreases |q|
  {
    if k == 0 {
      k' := 0;
    } else {
      var j := WithoutMovesUp(q[1..], e, k - 1);
      k' := if q[0].0 == e then j else j + 1;
    }
  }

  lemma {:induction false} WithoutHas(q: Queue, e: Id, x: (Id, WakeResult))
    ensures x in Without(q, e) <==> x in q && x.0 != e
    decreases |q|
  {
    if q != [] { WithoutHas(q[1..], e, x); }
  }

  lemma {:induction false} WithoutIdHas(ds: seq<Id>, e: Id, d: Id)
    ensures d in WithoutId(ds, e) <==> d in ds && d != e
    decreases |ds|
  {
    if ds != [] { WithoutIdHas(ds[1..], e, d); }
  }

  /** What is added, removed or woken leaves every other dispatcher where it is, and as it is. */
  lemma OthersStay(s: Sets, op: Op, d: Id, result: WakeResult)
    requires !op.Get? && op.id != d
    ensures var t := Apply(s, op).0;
            (d in t.armed <==> d in s.armed) && (d in t.processed <==> d in s.processed) &&
            ((d, result) in t.awoken <==> (d, result) in s.awoken) &&
            (d in t.waiting <==> d in s.waiting) && (d in s.waiting ==> t.waiting[d] == s.waiting[d])
  {
    if op.Remove? {
      WithoutHas(s.awoken, op.id, (d, result));
      WithoutIdHas(s.processed, op.id, d);
    }
  }

  /** While it is in the set, a dispatcher keeps what it was added with, and that is what is handed
      out; and only one that is in the set is handed out. */
  lemma ContextStays(s: Sets, op: Op, d: Id)
    requires OnePlace(s)
    ensures var (t, rs) := Apply(s, op);
            (d in s.waiting && d in t.waiting ==> t.waiting[d] == s.waiting[d]) &&
            forall r :: r in rs && r.id == d ==> d in s.waiting && r.context == s.waiting[d].context
  {
    if op.Get? { GetGives(s, op.count, op.answers); }
  }

  /** One operation reports what is due for d, or brings it forward: by one place at least if it is a
      call. */
  lemma MovesForward(s: Sets, op: Op, k: nat, d: Id, result: WakeResult) returns (k': nat)
    requires OnePlace(s) && QueuedAt(s, k, d, result) && op != Remove(d)
    ensures d in s.waiting
    ensures var (t, rs) := Apply(s, op);
            Reports(rs, Due(s, d, result)) ||
            (Silent(rs, d) && QueuedAt(t, k', d, result) && d in t.waiting && k' <= k &&
             (op.Get? && op.count > 0 ==> k' < k))
  {
    k' := k;
    InTheSet(s, k);
    match op {
      case Add(_, _, _) =>
      case Wake(_, _) =>
      case Remove(e) => if e in s.waiting { k' := WithoutMovesUp(s.awoken, e, k); }
      case Get(count, answers) =>
        RearmGives(s.(processed := []), s.processed, answers);
        GetReaches(s, count, answers, k, d, result);
        if k >= count { k' := k - count; }
    }
  }

  /** A dispatcher at position k of the queue that is not removed is handed out by one of the next
      k + 1 calls, whatever else happens in between; and what is handed out of it next is the result it
      was woken with, and the context it was added with. */
  lemma {:induction false} NobodyStarves(s: Sets, ops: seq<Op>, k: nat, d: Id, result: WakeResult)
    requires OnePlace(s) && QueuedAt(s, k, d, result) && !Removes(ops, d) && Calls(ops) > k
    ensures d in s.waiting && NextIs(s, ops, Due(s, d, result))
    decreases |ops|
  {
    hide OnePlace, Apply, Reports, Silent;
    var op := ops[0];
    assert op in ops;
    InTheSet(s, k);
    var k' := MovesForward(s, op, k, d, result);
    var (t, rs) := Apply(s, op);
    ReportsOrSilent(rs, Due(s, d, result));
    if Silent(rs, d) {
      ApplyKeeps(s, op);
      ContextStays(s, op, d);
      assert forall o :: o in ops[1..] ==> o in ops;
      NobodyStarves(t, ops[1..], k', d, result);
    }
  }

  lemma ReportsOrSilent(rs: seq<Ready>, r: Ready)
    ensures !(Reports(rs, r) && Silent(rs, r.id))
  {
  }

  /** A dispatcher that calls back is next handed out with the result that it gave, however many calls
      it takes. */
  lemma WokenIsHandedOut(s: Sets, d: Id, result: WakeResult, ops: seq<Op>)
    requires OnePlace(s) && d in s.armed && !Removes(ops, d) && Calls(ops) > |s.awoken|
    ensures d in s.waiting && NextIs(Apply(s, Wake(d, result)).0, ops, Due(s, d, result))
  {
    var t := Apply(s, Wake(d, result)).0;
    ApplyKeeps(s, Wake(d, result));
    NobodyStarves(t, ops, |s.awoken|, d, result);
  }

  /** One that already satisfies the signals when it is added, or never can, is handed out with that. */
  lemma AddedIsHandedOut(s: Sets, d: Id, state: WaitState, answer: Answer, ops: seq<Op>)
    requires OnePlace(s) && d !in s.waiting && (answer.AlreadyExists? || answer.Hopeless?)
    requires !Removes(ops, d) && Calls(ops) > |s.awoken|
    ensures NextIs(Apply(s, Add(d, state, answer)).0, ops,
                   Ready(d, if answer.AlreadyExists? then Ok else FailedPrecondition, state.context))
  {
    var t := Apply(s, Add(d, state, answer)).0;
    ApplyKeeps(s, Add(d, state, answer));
    NobodyStarves(t, ops, |s.awoken|, d, if answer.AlreadyExists? then Ok else FailedPrecondition);
  }

  /** d stays in the set all along the run. */
  ghost predicate Stays(s: Sets, ops: seq<Op>, d: Id)
    decreases |ops|
  {
    d in s.waiting && (ops != [] ==> Stays(Apply(s, ops[0]).0, ops[1..], d))
  }

  lemma {:induction false} StateStays(s: Sets, ops: seq<Op>, d: Id)
    requires OnePlace(s) && Stays(s, ops, d)
    ensures OnePlace(After(s, ops)) && d in After(s, ops).waiting && After(s, ops).waiting[d] == s.waiting[d]
    decreases |ops|
  {
    if ops != [] {
      ApplyKeeps(s, ops[0]);
      ContextStays(s, ops[0], d);
      StateStays(Apply(s, ops[0]).0, ops[1..], d);
    }
  }

  /** Whenever a dispatcher is handed out, it is with the context it was added with: from when it was
      added, whatever happened until then, as long as it has not left the set. */
  lemma HandedOutAsAdded(s: Sets, d: Id, state: WaitState, answer: Answer, ops: seq<Op>, op: Op, r: Ready)
    requires OnePlace(s) && d !in s.waiting && !answer.Closed?
    requires var t := Apply(s, Add(d, state, answer)).0;
             Stays(t, ops, d) && r in Apply(After(t, ops), op).1 && r.id == d
    ensures r.context == state.context
  {
    var t := Apply(s, Add(d, state, answer)).0;
    ApplyKeeps(s, Add(d, state, answer));
    StateStays(t, ops, d);
    ContextStays(After(t, ops), op, d);
  }

  // ----- WaitSetDispatcher -----

  class WaitSetDispatcher {
    /** A wait set is a dispatcher too. */
    const self: Id
    var isClosed: bool
    var waitingDispatchers: map<Id, WaitState>
    var awokenQueue: Queue
    var processedDispatchers: seq<Id>
    /** The dispatchers that hold our waiter. */
    ghost var armed: set<Id>

    ghost function State(): Sets
      reads this
    {
      Sets(waitingDispatchers, armed, awokenQueue, processedDispatchers)
    }

    /** It never waits for itself. */
    ghost predicate Valid()
      reads this
    {
      OnePlace(State()) && self !in waitingDispatchers
    }

    constructor (self: Id)
      ensures Valid() && State() == Sets(map[], {}, [], []) && !isClosed && this.self == self
    {
      this.self := self;
      isClosed, waitingDispatchers, awokenQueue, processedDispatchers, armed := false, map[], [], [], {};
    }

    /** A dispatcher that holds our waiter calls it, and lets go of it. */
    method Awake(d: Id, result: WakeResult)
      requires Valid() && d in armed
      modifies this
      ensures Valid() && State() == Apply(old(State()), Wake(d, result)).0 && isClosed == old(isClosed)
    {
      ApplyKeeps(State(), Wake(d, result));
      armed := armed - {d};
      awokenQueue := awokenQueue + [(d, result)];
    }

    /** `answer` is what the dispatcher says to AddAwakable. */
    method AddWaitingDispatcher(d: Id, state: WaitState, answer: Answer) returns (r: Outcome)
      requires Valid()
      modifies this
      ensures Valid() && isClosed == old(isClosed)
      ensures isClosed || d == self ==> r == InvalidArgument && State() == old(State())
      ensures !isClosed && d != self ==>
                State() == Apply(old(State()), Add(d, state, answer)).0 &&
                r == if d in old(waitingDispatchers) then AlreadyAdded
                     else if answer.Closed? then InvalidArgument else Success
    {
      if d == self { return InvalidArgument; }
      if isClosed { return InvalidArgument; }
      if d in waitingDispatchers { return AlreadyAdded; }
      ApplyKeeps(State(), Add(d, state, answer));
      match answer {
        case Closed => return InvalidArgument;
        case Armed => armed := armed + {d};
        case AlreadyExists => awokenQueue := awokenQueue + [(d, Ok)];
        case Hopeless => awokenQueue := awokenQueue + [(d, FailedPrecondition)];
      }
      waitingDispatchers := waitingDispatchers[d := state];
      return Success;
    }

    method RemoveWaitingDispatcher(d: Id) returns (r: Outcome)
      requires Valid()
      modifies this
      ensures Valid() && isClosed == old(isClosed) && d !in waitingDispatchers
      ensures State() == Apply(old(State()), Remove(d)).0
      ensures r == if d in old(waitingDispatchers) then Success else NotFound
    {
      if d !in waitingDispatchers { return NotFound; }
      RemovedKeeps(State(), d);
      armed := armed - {d};
      waitingDispatchers := waitingDispatchers - {d};
      var kept := EraseFromQueue(awokenQueue, d);
      var left := Erase(processedDispatchers, d);
      awokenQueue, processedDispatchers := kept, left;
      return Success;
    }

    static method EraseFromQueue(q: Queue, d: Id) returns (kept: Queue)
      ensures kept == Without(q, d)
    {
      kept := [];
      for i := 0 to |q|
        invariant kept + Without(q[i..], d) == Without(q, d)
      {
        assert q[i..][1..] == q[i + 1..];
        if q[i].0 != d { kept := kept + [q[i]]; }
      }
    }

    static method Erase(ds: seq<Id>, d: Id) returns (kept: seq<Id>)
      ensures kept == WithoutId(ds, d)
    {
      kept := [];
      for i := 0 to |ds|
        invariant kept + WithoutId(ds[i..], d) == WithoutId(ds, d)
      {
        assert ds[i..][1..] == ds[i + 1..];
        if ds[i] != d { kept := kept + [ds[i]]; }
      }
    }

    /** `answers` is what the dispatchers say to AddAwakable. */
    method GetReadyDispatchers(count: nat, answers: Id -> Answer) returns (r: Outcome, ready: seq<Ready>)
      requires Valid()
      modifies this
      ensures Valid() && isClosed == old(isClosed)
      ensures (State(), ready) == Apply(old(State()), Get(count, answers))
      ensures |ready| <= count && (r == ShouldWait <==> ready == []) && (r == Success <==> ready != [])
    {
      hide OnePlace, Take, Rearm;
      GetReadyKeeps(State(), count, answers);
      GetGives(State(), count, answers);
      RearmGives(State().(processed := []), processedDispatchers, answers);
      Requeue(answers);
      RequeuedKeeps(old(State()), answers);
      ready := TakeWoken(count);
      r := if ready == [] then ShouldWait else Success;
    }

    method TakeWoken(count: nat) returns (ready: seq<Ready>)
      requires Valid()
      modifies this`waitingDispatchers, this`awokenQueue, this`processedDispatchers
      ensures (State(), ready) == Take(old(State()), count) && |ready| <= count
    {
      hide Take, HandOut, OnePlace;
      ready := [];
      assert ready + Take(State(), count).1 == Take(State(), count).1;
      while awokenQueue != [] && |ready| < count
        invariant OnePlace(State()) && |ready| <= count
        invariant Joins(Take(old(State()), count), ready, Take(State(), count - |ready|))
        decreases count - |ready|
      {
        HandOutKeeps(State());
        TakeFirst(State(), count - |ready|);
        JoinsFirst(Take(old(State()), count), ready, HandOut(State()).1, Take(HandOut(State()).0, count - |ready| - 1));
        var first := HandOutOne();
        ready := ready + [first];
      }
      TakeFirst(State(), count - |ready|);
      assert ready + [] == ready;
    }

    method HandOutOne() returns (first: Ready)
      requires awokenQueue != [] && awokenQueue[0].0 in waitingDispatchers
      modifies this`waitingDispatchers, this`awokenQueue, this`processedDispatchers
      ensures (State(), first) == HandOut(old(State()))
    {
      var (d, result) := awokenQueue[0];
      first := Ready(d, result, waitingDispatchers[d].context);
      awokenQueue := awokenQueue[1..];
      if result.Cancelled? {
        waitingDispatchers := waitingDispatchers - {d};
      } else {
        processedDispatchers := processedDispatchers + [d];
      }
    }

    static lemma TakeFirst(s: Sets, count: nat)
      ensures s.awoken == [] || count == 0 ==> Take(s, count) == (s, [])
      ensures s.awoken != [] && count > 0 && s.awoken[0].0 in s.waiting ==>
                Take(s, count) ==
                (Take(HandOut(s).0, count - 1).0, [HandOut(s).1] + Take(HandOut(s).0, count - 1).1)
    {
    }

    /** What is handed out in all is what has been handed out and what is still to be. */
    static predicate Joins(all: (Sets, seq<Ready>), done: seq<Ready>, rest: (Sets, seq<Ready>)) {
      all == (rest.0, done + rest.1)
    }

    static lemma JoinsFirst(all: (Sets, seq<Ready>), done: seq<Ready>, first: Ready, rest: (Sets, seq<Ready>))
      requires Joins(all, done, (rest.0, [first] + rest.1))
      ensures Joins(all, done + [first], rest)
    {
      assert done + ([first] + rest.1) == done + [first] + rest.1;
    }

    /** Waits again for what the last call handed out. */
    method Requeue(answers: Id -> Answer)
      modifies this`waitingDispatchers, this`awokenQueue, this`processedDispatchers, this`armed
      ensures State() == Rearm(old(State()).(processed := []), old(processedDispatchers), answers)
    {
      var pending := processedDispatchers;
      processedDispatchers := [];
      for i := 0 to |pending|
        invariant Rearm(State(), pending[i..], answers) == Rearm(old(State()).(processed := []), pending, answers)
      {
        assert pending[i..][1..] == pending[i + 1..];
        var d := pending[i];
        match answers(d) {
          case Armed => armed := armed + {d};
          case AlreadyExists => awokenQueue := awokenQueue + [(d, Ok)];
          case Hopeless => awokenQueue := awokenQueue + [(d, FailedPrecondition)];
          case Closed => waitingDispatchers := waitingDispatchers - {d};
        }
      }
    }

    method Close() returns (r: Outcome)
      requires Valid()
      modifies this
      ensures Valid() && isClosed && (r == Success <==> !old(isClosed))
      ensures !old(isClosed) ==> State() == Sets(map[], {}, [], [])
    {
      if isClosed { return InvalidArgument; }
      isClosed, waitingDispatchers, awokenQueue, processedDispatchers, armed := true, map[], [], [], {};
      return Success;
    }
  }
}
