/** In-flight call accounting: counters, per-session request sets and heartbeats that must
    agree with the calls actually outstanding, under every interleaving of admission,
    completion, disconnect, response, deadline and teardown
    (services/gateway/session_manager.py). */
module SessionManager {
  import opened Values

  type SessionId = string
  type RequestId = string
  type Key = (SessionId, RequestId)

  /** `serial` tells one admission from another, as the call object does. */
  datatype Call = Call(identity: string, serial: nat, ready: bool, disconnected: bool, timedOut: bool)

  // ----- the simple form: which calls are outstanding -----

  /** `dying` sessions have been taken out of service but not cleaned up yet. */
  datatype View = View(live: set<SessionId>, dying: set<SessionId>, calls: map<Key, Call>, admitted: nat)

  /** Each step is one stretch of code that runs without giving up control. Open stands
      for `create`, which picks a session id never used before. */
  datatype Step =
    | Open(session: SessionId)
    | Admit(session: SessionId, identity: string, request: RequestId)
    | Finish(session: SessionId, request: RequestId)
    | Disconnect(session: SessionId, request: RequestId)
    | Response(session: SessionId, request: RequestId)
    | Deadline(session: SessionId, request: RequestId)
    | Pop(session: SessionId)
    | Cleanup(session: SessionId)

  function CallsBy(calls: map<Key, Call>, identity: string): set<Key> {
    set k | k in calls && calls[k].identity == identity
  }

  function CallsIn(calls: map<Key, Call>, session: SessionId): set<Key> {
    set k | k in calls && k.0 == session
  }

  predicate Admissible(v: View, limit: nat, session: SessionId, identity: string, request: RequestId) {
    session in v.live && (session, request) !in v.calls && |CallsBy(v.calls, identity)| < limit
  }

  function Next(v: View, limit: nat, a: Step): View {
    match a
    case Open(s) => if s in v.live + v.dying then v else v.(live := v.live + {s})
    case Admit(s, i, r) =>
      if !Admissible(v, limit, s, i, r) then v
      else v.(calls := v.calls[(s, r) := Call(i, v.admitted, false, false, false)], admitted := v.admitted + 1)
    case Finish(s, r) =>
      if (s, r) !in v.calls || v.calls[(s, r)].timedOut then v else v.(calls := v.calls - {(s, r)})
    case Disconnect(s, r) =>
      if (s, r) !in v.calls || v.calls[(s, r)].timedOut then v
      else if v.calls[(s, r)].ready then v.(calls := v.calls - {(s, r)})
      else v.(calls := v.calls[(s, r) := v.calls[(s, r)].(disconnected := true)])
    case Response(s, r) =>
      if (s, r) !in v.calls || v.calls[(s, r)].timedOut then v
      else if v.calls[(s, r)].disconnected then v.(calls := v.calls - {(s, r)})
      else v.(calls := v.calls[(s, r) := v.calls[(s, r)].(ready := true)])
    case Deadline(s, r) =>
      if (s, r) !in v.calls then v
      else Retire(v.(calls := v.calls[(s, r) := v.calls[(s, r)].(timedOut := true)]), s)
    case Pop(s) => Retire(v, s)
    case Cleanup(s) => if s !in v.dying then v else v.(dying := v.dying - {s}, calls := v.calls - CallsIn(v.calls, s))
  }

  function Retire(v: View, session: SessionId): View {
    if session !in v.live then v else v.(live := v.live - {session}, dying := v.dying + {session})
  }

  function Run(v: View, limit: nat, steps: seq<Step>): View {
    if |steps| == 0 then v else Next(Run(v, limit, steps[..|steps| - 1]), limit, steps[|steps| - 1])
  }

  const START := View({}, {}, map[], 0)

  /** A call belongs to a session that is in service or about to be cleaned up, has not both
      been answered and been abandoned, has timed out only if its session is out of
      service, has its own serial, and no identity is over the limit. */
  ghost predicate Lawful(v: View, limit: nat) {
    Proper(v) && forall i :: |CallsBy(v.calls, i)| <= limit
  }

  ghost predicate Proper(v: View) {
    && v.live !! v.dying
    && (forall k :: k in v.calls ==>
          && k.0 in v.live + v.dying
          && !(v.calls[k].ready && v.calls[k].disconnected)
          && (v.calls[k].timedOut ==> k.0 in v.dying)
          && v.calls[k].serial < v.admitted)
    && (forall k, l :: k in v.calls && l in v.calls && v.calls[k].serial == v.calls[l].serial ==> k == l)
  }

  lemma CallsByAdded(calls: map<Key, Call>, k: Key, c: Call, i: string)
    requires k !in calls
    ensures |CallsBy(calls[k := c], i)| == |CallsBy(calls, i)| + if c.identity == i then 1 else 0
  {
    assert CallsBy(calls[k := c], i) == CallsBy(calls, i) + if c.identity == i then {k} else {};
  }

  lemma CallsByRemoved(calls: map<Key, Call>, k: Key, i: string)
    requires k in calls
    ensures |CallsBy(calls - {k}, i)| == |CallsBy(calls, i)| - if calls[k].identity == i then 1 else 0
  {
    assert CallsBy(calls - {k}, i) == CallsBy(calls, i) - {k};
  }

  lemma CallsByMarked(calls: map<Key, Call>, k: Key, c: Call, i: string)
    requires k in calls && calls[k].identity == c.identity
    ensures CallsBy(calls[k := c], i) == CallsBy(calls, i)
  {
  }

  lemma SubsetSize<T>(a: set<T>, b: set<T>)
    requires a <= b
    ensures |a| <= |b|
  {
    assert b == a + (b - a);
  }

  lemma StepKeepsLimit(v: View, limit: nat, a: Step, i: string)
    requires |CallsBy(v.calls, i)| <= limit
    ensures |CallsBy(Next(v, limit, a).calls, i)| <= limit
  {
    var w := Next(v, limit, a);
    match a {
      case Open(_) =>
      case Pop(_) =>
      case Admit(s, identity, r) =>
        if w != v { CallsByAdded(v.calls, (s, r), w.calls[(s, r)], i); }
      case Finish(s, r) =>
        SubsetSize(CallsBy(w.calls, i), CallsBy(v.calls, i));
      case Cleanup(s) =>
        SubsetSize(CallsBy(w.calls, i), CallsBy(v.calls, i));
      case Deadline(s, r) =>
        if (s, r) in v.calls { CallsByMarked(v.calls, (s, r), w.calls[(s, r)], i); }
      case Disconnect(s, r) =>
        if (s, r) in w.calls { CallsByMarked(v.calls, (s, r), w.calls[(s, r)], i); }
        else { SubsetSize(CallsBy(w.calls, i), CallsBy(v.calls, i)); }
      case Response(s, r) =>
        if (s, r) in w.calls { CallsByMarked(v.calls, (s, r), w.calls[(s, r)], i); }
        else { SubsetSize(CallsBy(w.calls, i), CallsBy(v.calls, i)); }
    }
  }

  lemma AdmissionKeepsProper(v: View, k: Key, c: Call)
    requires Proper(v) && k !in v.calls && k.0 in v.live && c.serial == v.admitted
    requires !c.ready && !c.timedOut
    ensures Proper(v.(calls := v.calls[k := c], admitted := v.admitted + 1))
  {
  }

  lemma MarkKeepsProper(v: View, k: Key, c: Call)
    requires Proper(v) && k in v.calls && c.serial == v.calls[k].serial
    requires !(c.ready && c.disconnected) && (c.timedOut ==> k.0 in v.dying)
    ensures Proper(v.(calls := v.calls[k := c]))
  {
  }

  lemma RemovalKeepsProper(v: View, gone: set<Key>, dying: set<SessionId>)
    requires Proper(v) && dying <= v.dying
    requires forall k :: k in v.calls && k !in gone ==> k.0 in v.live + dying
    ensures Proper(v.(calls := v.calls - gone, dying := dying))
  {
  }

  lemma RetireKeepsProper(v: View, s: SessionId)
    requires Proper(v)
    ensures Proper(Retire(v, s))
  {
  }

  lemma StepKeepsProper(v: View, limit: nat, a: Step)
    requires Proper(v)
    ensures Proper(Next(v, limit, a))
  {
    match a {
      case Open(_) =>
      case Pop(s) => RetireKeepsProper(v, s);
      case Admit(s, i, r) =>
        if Admissible(v, limit, s, i, r) { AdmissionKeepsProper(v, (s, r), Call(i, v.admitted, false, false, false)); }
      case Finish(s, r) => RemovalKeepsProper(v, {(s, r)}, v.dying);
      case Cleanup(s) => RemovalKeepsProper(v, CallsIn(v.calls, s), v.dying - {s});
      case Deadline(s, r) =>
        if (s, r) in v.calls {
          RetireKeepsProper(v, s);
          MarkKeepsProper(Retire(v, s), (s, r), v.calls[(s, r)].(timedOut := true));
        }
      case Disconnect(s, r) =>
        RemovalKeepsProper(v, {(s, r)}, v.dying);
        if (s, r) in v.calls && !v.calls[(s, r)].ready { MarkKeepsProper(v, (s, r), v.calls[(s, r)].(disconnected := true)); }
      case Response(s, r) =>
        RemovalKeepsProper(v, {(s, r)}, v.dying);
        if (s, r) in v.calls && !v.calls[(s, r)].disconnected { MarkKeepsProper(v, (s, r), v.calls[(s, r)].(ready := true)); }
    }
  }

  lemma StepKeepsLawful(v: View, limit: nat, a: Step)
    requires Lawful(v, limit)
    ensures Lawful(Next(v, limit, a), limit)
  {
    StepKeepsProper(v, limit, a);
    forall i ensures |CallsBy(Next(v, limit, a).calls, i)| <= limit {
      StepKeepsLimit(v, limit, a, i);
    }
  }

  lemma {:induction false} EveryRunIsLawful(v: View, limit: nat, steps: seq<Step>)
    requires Lawful(v, limit)
    ensures Lawful(Run(v, limit, steps), limit)
  {
    if |steps| > 0 {
      EveryRunIsLawful(v, limit, steps[..|steps| - 1]);
      StepKeepsLawful(Run(v, limit, steps[..|steps| - 1]), limit, steps[|steps| - 1]);
    }
  }

  // ----- conservation -----

  function Serials(calls: map<Key, Call>): set<nat> {
    set k | k in calls :: calls[k].serial
  }

  function Below(n: nat): (b: set<nat>)
    ensures forall m: nat :: m in b <==> m < n
  {
    if n == 0 then {} else Below(n - 1) + {n - 1}
  }

  /** The admission that a step begins. */
  function Begun(v: View, limit: nat, a: Step): set<nat> {
    if Next(v, limit, a).admitted == v.admitted then {} else {v.admitted}
  }

  /** The admissions that a step ends. */
  function Ended(v: View, limit: nat, a: Step): set<nat> {
    Serials(v.calls) - Serials(Next(v, limit, a).calls)
  }

  function AllEnded(v: View, limit: nat, steps: seq<Step>): multiset<nat> {
    if |steps| == 0 then multiset{}
    else
      var n := |steps| - 1;
      AllEnded(v, limit, steps[..n]) + multiset(Ended(Run(v, limit, steps[..n]), limit, steps[n]))
  }

  lemma SerialsAdded(calls: map<Key, Call>, k: Key, c: Call)
    requires k !in calls
    ensures Serials(calls[k := c]) == Serials(calls) + {c.serial}
  {
    var more := calls[k := c];
    assert forall l :: l in calls ==> l in more && more[l] == calls[l];
    assert k in more && more[k] == c;
  }

  lemma SerialsShrink(before: map<Key, Call>, after: map<Key, Call>)
    requires forall k :: k in after ==> k in before && after[k].serial == before[k].serial
    ensures Serials(after) <= Serials(before)
  {
  }

  /** No step but an admission brings in a call. */
  lemma OthersOnlyShrink(v: View, limit: nat, a: Step, k: Key)
    requires !(a.Admit? && Admissible(v, limit, a.session, a.identity, a.request))
    ensures Next(v, limit, a).admitted == v.admitted
    ensures k in Next(v, limit, a).calls ==> k in v.calls && Next(v, limit, a).calls[k].serial == v.calls[k].serial
  {
  }

  lemma StepConserves(v: View, limit: nat, a: Step)
    requires Proper(v)
    ensures
      var w := Next(v, limit, a);
      && Serials(w.calls) + Ended(v, limit, a) == Serials(v.calls) + Begun(v, limit, a)
      && Serials(w.calls) !! Ended(v, limit, a) && Serials(v.calls) !! Begun(v, limit, a)
      && Below(w.admitted) == Below(v.admitted) + Begun(v, limit, a)
      && Below(v.admitted) !! Begun(v, limit, a)
  {
    if a.Admit? && Admissible(v, limit, a.session, a.identity, a.request) {
      SerialsAdded(v.calls, (a.session, a.request), Call(a.identity, v.admitted, false, false, false));
      assert v.admitted !in Serials(v.calls);
    } else {
      var w := Next(v, limit, a);
      forall k | k in w.calls ensures k in v.calls && w.calls[k].serial == v.calls[k].serial {
        OthersOnlyShrink(v, limit, a, k);
      }
      OthersOnlyShrink(v, limit, a, ("", ""));
      SerialsShrink(v.calls, w.calls);
    }
  }

  /** Bookkeeping on bags: what has ended and what stands make up what was begun. */
  lemma Balance(gone: multiset<nat>, stood: set<nat>, stands: set<nat>, ended: set<nat>, begun: set<nat>,
                before: set<nat>, after: set<nat>)
    requires gone + multiset(stood) == multiset(before)
    requires stands + ended == stood + begun && stands !! ended && stood !! begun
    requires after == before + begun && before !! begun
    ensures gone + multiset(ended) + multiset(stands) == multiset(after)
  {
    assert multiset(stands + ended) == multiset(stands) + multiset(ended);
    assert multiset(stood + begun) == multiset(stood) + multiset(begun);
    assert multiset(before + begun) == multiset(before) + multiset(begun);
  }

  /** Each admitted call is ended by exactly one step or is still outstanding. */
  lemma {:induction false} EachCallEndsOnce(limit: nat, steps: seq<Step>)
    ensures AllEnded(START, limit, steps) + multiset(Serials(Run(START, limit, steps).calls))
         == multiset(Below(Run(START, limit, steps).admitted))
  {
    if |steps| > 0 {
      var n := |steps| - 1;
      var v := Run(START, limit, steps[..n]);
      EachCallEndsOnce(limit, steps[..n]);
      EveryRunIsLawful(START, limit, steps[..n]);
      StepConserves(v, limit, steps[n]);
      var w := Next(v, limit, steps[n]);
      Balance(AllEnded(START, limit, steps[..n]), Serials(v.calls), Serials(w.calls), Ended(v, limit, steps[n]),
              Begun(v, limit, steps[n]), Below(v.admitted), Below(w.admitted));
    }
  }

  // ----- a call that was both answered and abandoned is over -----

  /** The admission is over, or it stands and remembers what has happened to it. */
  ghost predicate Remembers(v: View, k: Key, serial: nat, answered: bool, abandoned: bool) {
    serial in Serials(v.calls) ==>
      && k in v.calls && v.calls[k].serial == serial
      && (v.calls[k].timedOut || ((answered ==> v.calls[k].ready) && (abandoned ==> v.calls[k].disconnected)))
  }

  lemma StepRemembers(v: View, limit: nat, a: Step, k: Key, serial: nat, answered: bool, abandoned: bool)
    requires Lawful(v, limit) && serial < v.admitted && Remembers(v, k, serial, answered, abandoned)
    ensures Remembers(Next(v, limit, a), k, serial, answered || a == Response(k.0, k.1), abandoned || a == Disconnect(k.0, k.1))
  {
    var w := Next(v, limit, a);
    if serial in Serials(w.calls) {
      var l :| l in w.calls && w.calls[l].serial == serial;
      assert l in v.calls && v.calls[l].serial == serial;
      assert l == k;
    }
  }

  /** Whatever is interleaved, once a call has had both its response and its client's
      disconnect it is over, unless its deadline struck first. */
  lemma {:induction false} AnsweredAndAbandonedIsOver(v: View, limit: nat, steps: seq<Step>, k: Key)
    requires Lawful(v, limit) && k in v.calls
    ensures
      var w := Run(v, limit, steps);
      Remembers(w, k, v.calls[k].serial, Response(k.0, k.1) in steps, Disconnect(k.0, k.1) in steps)
      && v.admitted <= w.admitted
      && (Response(k.0, k.1) in steps && Disconnect(k.0, k.1) in steps && v.calls[k].serial in Serials(w.calls) ==>
            w.calls[k].timedOut && k.0 in w.dying)
    decreases |steps|
  {
    if |steps| == 0 {
      forall l | l in v.calls && v.calls[l].serial == v.calls[k].serial ensures l == k {}
    } else {
      var n := |steps| - 1;
      var before := Run(v, limit, steps[..n]);
      AnsweredAndAbandonedIsOver(v, limit, steps[..n], k);
      EveryRunIsLawful(v, limit, steps[..n]);
      StepRemembers(before, limit, steps[n], k, v.calls[k].serial,
                    Response(k.0, k.1) in steps[..n], Disconnect(k.0, k.1) in steps[..n]);
      assert steps == steps[..n] + [steps[n]];
      EveryRunIsLawful(v, limit, steps);
    }
  }

  // ----- exactly which calls are outstanding -----

  /** A step ends the call under k, for one of four reasons: it finishes before its deadline,
      it has its response and its client's disconnect before its deadline, in either order,
      or its session is cleaned up once out of service. `prior` is what has happened since
      the call was admitted. */
  predicate EndedBy(live: set<SessionId>, prior: seq<Step>, a: Step, k: Key) {
    var intime := Deadline(k.0, k.1) !in prior;
    || (a == Finish(k.0, k.1) && intime)
    || (a == Response(k.0, k.1) && Disconnect(k.0, k.1) in prior && intime)
    || (a == Disconnect(k.0, k.1) && Response(k.0, k.1) in prior && intime)
    || (a == Cleanup(k.0) && k.0 !in live)
  }

  predicate EndsAt(v: View, limit: nat, steps: seq<Step>, k: Key, i: nat)
    requires i < |steps|
  {
    EndedBy(Run(v, limit, steps[..i]).live, steps[..i], steps[i], k)
  }

  ghost predicate Over(v: View, limit: nat, steps: seq<Step>, k: Key) {
    exists i: nat :: i < |steps| && EndsAt(v, limit, steps, k, i)
  }

  /** The call stands, and its flags tell what has happened to it so far. */
  predicate Standing(w: View, k: Key, c: Call, prior: seq<Step>) {
    && k in w.calls && w.calls[k].serial == c.serial && w.calls[k].identity == c.identity
    && (w.calls[k].timedOut <==> Deadline(k.0, k.1) in prior)
    && (!w.calls[k].timedOut ==>
          && (w.calls[k].ready <==> Response(k.0, k.1) in prior)
          && (w.calls[k].disconnected <==> Disconnect(k.0, k.1) in prior))
  }

  predicate Untouched(c: Call) {
    !c.ready && !c.disconnected && !c.timedOut
  }

  lemma StepEnds(w: View, limit: nat, a: Step, k: Key, c: Call, prior: seq<Step>)
    requires Proper(w) && Standing(w, k, c, prior)
    ensures
      var e := Next(w, limit, a);
      if EndedBy(w.live, prior, a, k) then c.serial !in Serials(e.calls) else Standing(e, k, c, prior + [a])
  {
    var e := Next(w, limit, a);
    if EndedBy(w.live, prior, a, k) {
      forall l | l in e.calls ensures e.calls[l].serial != c.serial {
        OthersOnlyShrink(w, limit, a, l);
      }
    }
  }

  lemma StaysOver(w: View, limit: nat, a: Step, serial: nat)
    requires Proper(w) && serial < w.admitted && serial !in Serials(w.calls)
    ensures serial !in Serials(Next(w, limit, a).calls)
  {
    StepConserves(w, limit, a);
  }

  lemma AdmittedGrows(w: View, limit: nat, a: Step)
    ensures w.admitted <= Next(w, limit, a).admitted
  {
  }

  /** Whatever is interleaved, an admission is over exactly when some step ended it, and
      until then its call is outstanding with the flags of what has happened to it. */
  lemma {:induction false} OverExactlyWhen(v: View, limit: nat, steps: seq<Step>, k: Key)
    requires Lawful(v, limit) && k in v.calls && Untouched(v.calls[k])
    ensures
      var w := Run(v, limit, steps);
      && v.admitted <= w.admitted
      && (v.calls[k].serial in Serials(w.calls) <==> !Over(v, limit, steps, k))
      && (!Over(v, limit, steps, k) ==> Standing(w, k, v.calls[k], steps))
    decreases |steps|
  {
    if |steps| > 0 {
      var n, c := |steps| - 1, v.calls[k];
      var before := Run(v, limit, steps[..n]);
      OverExactlyWhen(v, limit, steps[..n], k);
      EveryRunIsLawful(v, limit, steps[..n]);
      AdmittedGrows(before, limit, steps[n]);
      OverSoFar(v, limit, steps, k);
      if Over(v, limit, steps[..n], k) {
        StaysOver(before, limit, steps[n], c.serial);
      } else {
        StepEnds(before, limit, steps[n], k, c, steps[..n]);
        assert steps == steps[..n] + [steps[n]];
      }
    }
  }

  lemma OverSoFar(v: View, limit: nat, steps: seq<Step>, k: Key)
    requires steps != []
    ensures
      var n := |steps| - 1;
      Over(v, limit, steps, k) <==> Over(v, limit, steps[..n], k) || EndsAt(v, limit, steps, k, n)
  {
    var n := |steps| - 1;
    forall i: nat | i < n ensures EndsAt(v, limit, steps[..n], k, i) == EndsAt(v, limit, steps, k, i) {
      assert steps[..n][..i] == steps[..i];
    }
    if Over(v, limit, steps[..n], k) {
      var i: nat :| i < n && EndsAt(v, limit, steps[..n], k, i);
      assert EndsAt(v, limit, steps, k, i);
    }
    if Over(v, limit, steps, k) && !EndsAt(v, limit, steps, k, n) {
      var i: nat :| i < |steps| && EndsAt(v, limit, steps, k, i);
      assert EndsAt(v, limit, steps[..n], k, i);
    }
  }

  /** The i-th step admits a call under k. */
  predicate AdmitsAt(limit: nat, steps: seq<Step>, k: Key, i: nat)
    requires i < |steps|
  {
    && steps[i].Admit? && (steps[i].session, steps[i].request) == k
    && Admissible(Run(START, limit, steps[..i]), limit, k.0, steps[i].identity, k.1)
  }

  /** The i-th step admits a call under k, and no later one ends it. */
  ghost predicate StandsSince(limit: nat, steps: seq<Step>, k: Key, i: nat)
    requires i < |steps|
  {
    AdmitsAt(limit, steps, k, i) && !Over(Run(START, limit, steps[..i + 1]), limit, steps[i + 1..], k)
  }

  lemma {:induction false} RunSplits(v: View, limit: nat, steps: seq<Step>, m: nat)
    requires m <= |steps|
    ensures Run(v, limit, steps) == Run(Run(v, limit, steps[..m]), limit, steps[m..])
    decreases |steps|
  {
    var n := |steps| - 1;
    if m == |steps| {
      assert steps[..m] == steps;
    } else {
      RunSplits(v, limit, steps[..n], m);
      assert steps[..n][..m] == steps[..m] && steps[..n][m..] == steps[m..][..n - m];
    }
  }

  /** An admissible call becomes outstanding, its flags clear, under the identity that made it. */
  lemma AdmissionBegins(limit: nat, steps: seq<Step>, k: Key, i: nat)
    requires i < |steps| && AdmitsAt(limit, steps, k, i)
    ensures
      var v, w := Run(START, limit, steps[..i]), Run(START, limit, steps[..i + 1]);
      && k !in v.calls && k in w.calls && Untouched(w.calls[k]) && w.calls[k].identity == steps[i].identity
      && w.admitted == v.admitted + 1
  {
    assert steps[..i + 1][..i] == steps[..i];
  }

  /** The calls outstanding after a run are exactly those that some step admitted and no
      later step ended. */
  lemma {:induction false} OutstandingExactlyWhen(limit: nat, steps: seq<Step>, k: Key)
    ensures k in Run(START, limit, steps).calls <==> exists i: nat :: i < |steps| && StandsSince(limit, steps, k, i)
  {
    if i: nat :| i < |steps| && StandsSince(limit, steps, k, i) {
      AdmissionBegins(limit, steps, k, i);
      EveryRunIsLawful(START, limit, steps[..i + 1]);
      OverExactlyWhen(Run(START, limit, steps[..i + 1]), limit, steps[i + 1..], k);
      RunSplits(START, limit, steps, i + 1);
    } else if k in Run(START, limit, steps).calls {
      var i := AdmissionOf(limit, steps, k);
      assert StandsSince(limit, steps, k, i);
    }
  }

  /** The step that admitted an outstanding call. */
  lemma {:induction false} AdmissionOf(limit: nat, steps: seq<Step>, k: Key) returns (i: nat)
    requires k in Run(START, limit, steps).calls
    ensures i < |steps| && StandsSince(limit, steps, k, i)
    decreases |steps|
  {
    hide Next, Lawful, Admissible;
    var n := |steps| - 1;
    var before := Run(START, limit, steps[..n]);
    if k in before.calls {
      i := AdmissionOf(limit, steps[..n], k);
      StillStands(limit, steps, k, i);
    } else {
      i := n;
      NewOnlyByAdmission(before, limit, steps[n], k);
      assert steps[n + 1..] == [];
    }
  }

  lemma NewOnlyByAdmission(v: View, limit: nat, a: Step, k: Key)
    requires k !in v.calls && k in Next(v, limit, a).calls
    ensures a.Admit? && (a.session, a.request) == k && Admissible(v, limit, k.0, a.identity, k.1)
  {
  }

  lemma SerialStays(v: View, limit: nat, a: Step, k: Key)
    requires k in v.calls && k in Next(v, limit, a).calls
    ensures Next(v, limit, a).calls[k].serial == v.calls[k].serial
  {
  }

  lemma StillStands(limit: nat, steps: seq<Step>, k: Key, i: nat)
    requires i < |steps| - 1 && StandsSince(limit, steps[..|steps| - 1], k, i)
    requires k in Run(START, limit, steps[..|steps| - 1]).calls && k in Run(START, limit, steps).calls
    ensures StandsSince(limit, steps, k, i)
  {
    hide Next, Lawful, Admissible, Over;
    var n := |steps| - 1;
    var less := steps[..n];
    assert less[..i] == steps[..i] && less[..i + 1] == steps[..i + 1];
    var v := Run(START, limit, steps[..i + 1]);
    AdmissionBegins(limit, steps, k, i);
    StartIsLawful(limit);
    EveryRunIsLawful(START, limit, steps[..i + 1]);
    OverExactlyWhen(v, limit, less[i + 1..], k);
    RunSplits(START, limit, less, i + 1);
    SerialStays(Run(START, limit, less), limit, steps[n], k);
    OverExactlyWhen(v, limit, steps[i + 1..], k);
    RunSplits(START, limit, steps, i + 1);
  }

  lemma StartIsLawful(limit: nat)
    ensures Lawful(START, limit)
  {
  }

  /** A finish in time takes the call away and frees one place of its identity's limit. */
  lemma FinishFreesAPlace(v: View, limit: nat, k: Key)
    requires k in v.calls && !v.calls[k].timedOut
    ensures
      var w := Next(v, limit, Finish(k.0, k.1));
      && w.calls.Keys == v.calls.Keys - {k} && (forall l :: l in w.calls ==> w.calls[l] == v.calls[l])
      && |CallsBy(w.calls, v.calls[k].identity)| == |CallsBy(v.calls, v.calls[k].identity)| - 1
  {
    CallsByRemoved(v.calls, k, v.calls[k].identity);
  }

  // ----- exactly which sessions are in service -----

  /** A step takes the session out of service: its teardown, or the deadline of a call
      outstanding in it. */
  predicate Retires(v: View, a: Step, s: SessionId) {
    a == Pop(s) || (a.Deadline? && a.session == s && (s, a.request) in v.calls)
  }

  predicate RetiresAt(limit: nat, steps: seq<Step>, s: SessionId, i: nat)
    requires i < |steps|
  {
    Retires(Run(START, limit, steps[..i]), steps[i], s)
  }

  /** Opened by the i-th step, and not taken out of service since. */
  ghost predicate ServesSince(limit: nat, steps: seq<Step>, s: SessionId, i: nat)
    requires i < |steps|
  {
    && steps[i] == Open(s) && s !in Run(START, limit, steps[..i]).dying
    && forall j :: i < j < |steps| ==> !RetiresAt(limit, steps, s, j)
  }

  /** In service up to the i-th step, which takes it out of service, and not cleaned up since. */
  predicate DiesSince(limit: nat, steps: seq<Step>, s: SessionId, i: nat)
    requires i < |steps|
  {
    && s in Run(START, limit, steps[..i]).live && RetiresAt(limit, steps, s, i)
    && forall j :: i < j < |steps| ==> steps[j] != Cleanup(s)
  }

  /** After any run a session is in service exactly when some step opened it and none took
      it out of service since, and waits to be cleaned up exactly when some step took it out
      of service and none cleaned it up since. */
  lemma {:induction false} SessionsExactlyWhen(limit: nat, steps: seq<Step>, s: SessionId)
    ensures
      var v := Run(START, limit, steps);
      && (s in v.live <==> Served(limit, steps, s))
      && (s in v.dying <==> Dead(limit, steps, s))
  {
    if |steps| > 0 {
      var n := |steps| - 1;
      SessionsExactlyWhen(limit, steps[..n], s);
      EveryRunIsLawful(START, limit, steps[..n]);
      ServedSoFar(limit, steps, s);
      DyingSoFar(limit, steps, s);
      SessionsMove(Run(START, limit, steps[..n]), limit, steps[n], s);
    }
  }

  ghost predicate Served(limit: nat, steps: seq<Step>, s: SessionId) {
    exists i: nat :: i < |steps| && ServesSince(limit, steps, s, i)
  }

  ghost predicate Dead(limit: nat, steps: seq<Step>, s: SessionId) {
    exists i: nat :: i < |steps| && DiesSince(limit, steps, s, i)
  }

  lemma ServedSoFar(limit: nat, steps: seq<Step>, s: SessionId)
    requires steps != []
    ensures
      var n := |steps| - 1;
      var before := Run(START, limit, steps[..n]);
      Served(limit, steps, s) <==>
        (Served(limit, steps[..n], s) && !Retires(before, steps[n], s)) || (steps[n] == Open(s) && s !in before.dying)
  {
    hide Run, Retires;
    var n := |steps| - 1;
    var less := steps[..n];
    assert forall i: nat :: i < n ==> less[..i] == steps[..i];
    forall i: nat | i < n
      ensures ServesSince(limit, steps, s, i) <==> ServesSince(limit, less, s, i) && !RetiresAt(limit, steps, s, n)
    {
      assert forall j :: i < j < n ==> RetiresAt(limit, steps, s, j) == RetiresAt(limit, less, s, j);
    }
    if Served(limit, less, s) && !RetiresAt(limit, steps, s, n) {
      var i: nat :| i < n && ServesSince(limit, less, s, i);
      assert ServesSince(limit, steps, s, i);
    }
    assert ServesSince(limit, steps, s, n) <==> steps[n] == Open(s) && s !in Run(START, limit, less).dying;
  }

  lemma DyingSoFar(limit: nat, steps: seq<Step>, s: SessionId)
    requires steps != []
    ensures
      var n := |steps| - 1;
      var before := Run(START, limit, steps[..n]);
      Dead(limit, steps, s) <==>
        (Dead(limit, steps[..n], s) && steps[n] != Cleanup(s)) || (s in before.live && Retires(before, steps[n], s))
  {
    hide Run, Retires;
    var n := |steps| - 1;
    var less := steps[..n];
    assert forall i: nat :: i < n ==> less[..i] == steps[..i];
    forall i: nat | i < n
      ensures DiesSince(limit, steps, s, i) <==> DiesSince(limit, less, s, i) && steps[n] != Cleanup(s)
    {
      assert RetiresAt(limit, steps, s, i) == RetiresAt(limit, less, s, i);
    }
    if Dead(limit, less, s) && steps[n] != Cleanup(s) {
      var i: nat :| i < n && DiesSince(limit, less, s, i);
      assert DiesSince(limit, steps, s, i);
    }
    assert DiesSince(limit, steps, s, n) <==> s in Run(START, limit, less).live && RetiresAt(limit, steps, s, n);
  }

  lemma SessionsMove(v: View, limit: nat, a: Step, s: SessionId)
    requires Proper(v)
    ensures
      var w := Next(v, limit, a);
      && (s in w.live <==> (s in v.live && !Retires(v, a, s)) || (a == Open(s) && s !in v.dying))
      && (s in w.dying <==> (s in v.dying && a != Cleanup(s)) || (s in v.live && Retires(v, a, s)))
  {
  }

  // ----- the fast form: counters, request sets and heartbeats -----

  datatype Session = Session(outstanding: set<RequestId>, heartbeat: bool)

  datatype Admission = Admitted | NoSession | DuplicateRequestId | InflightLimitExceeded

  /** The counters say how many calls each identity has, and never store zero. */
  ghost predicate Counted(calls: map<Key, Call>, inflight: map<string, nat>) {
    forall i :: |CallsBy(calls, i)| == if i in inflight then inflight[i] else 0
  }

  ghost predicate NoZero(inflight: map<string, nat>) {
    forall i :: i in inflight ==> inflight[i] > 0
  }

  /** A session in service lists exactly its outstanding calls, and has a heartbeat exactly
      when there are any. */
  ghost predicate Exact(calls: map<Key, Call>, sessions: map<SessionId, Session>) {
    forall s :: s in sessions ==>
      && (forall r :: r in sessions[s].outstanding <==> (s, r) in calls)
      && (sessions[s].heartbeat <==> sessions[s].outstanding != {})
  }

  /** A dying session lists at least its outstanding calls. */
  ghost predicate Covers(calls: map<Key, Call>, dying: map<SessionId, Session>) {
    forall s, r :: s in dying && (s, r) in calls ==> r in dying[s].outstanding
  }

  /** One step down of a counter, dropping it rather than storing zero. */
  function Decrement(inflight: map<string, nat>, identity: string): map<string, nat> {
    var count := if identity in inflight then inflight[identity] else 0;
    if count <= 1 then inflight - {identity} else inflight[identity := count - 1]
  }

  function Forget(session: Session, r: RequestId): Session {
    var rest := session.outstanding - {r};
    Session(rest, if rest == {} then false else session.heartbeat)
  }

  lemma CountedAfterAdmission(calls: map<Key, Call>, inflight: map<string, nat>, k: Key, c: Call)
    requires Counted(calls, inflight) && k !in calls
    ensures Counted(calls[k := c], inflight[c.identity := |CallsBy(calls, c.identity)| + 1])
  {
    forall i { CallsByAdded(calls, k, c, i); }
  }

  lemma CountedAfterRemoval(calls: map<Key, Call>, inflight: map<string, nat>, k: Key)
    requires Counted(calls, inflight) && NoZero(inflight) && k in calls
    ensures Counted(calls - {k}, Decrement(inflight, calls[k].identity))
    ensures NoZero(Decrement(inflight, calls[k].identity))
  {
    assert k in CallsBy(calls, calls[k].identity);
    var rest := calls - {k};
    var lowered := Decrement(inflight, calls[k].identity);
    forall i ensures |CallsBy(rest, i)| == if i in lowered then lowered[i] else 0 {
      CallsByRemoved(calls, k, i);
      assert |CallsBy(calls, i)| == if i in inflight then inflight[i] else 0;
    }
  }

  lemma CountedAfterMark(calls: map<Key, Call>, inflight: map<string, nat>, k: Key, c: Call)
    requires Counted(calls, inflight) && k in calls && c.identity == calls[k].identity
    ensures Counted(calls[k := c], inflight)
  {
    forall i ensures |CallsBy(calls[k := c], i)| == if i in inflight then inflight[i] else 0 {
      CallsByMarked(calls, k, c, i);
      assert |CallsBy(calls, i)| == if i in inflight then inflight[i] else 0;
    }
  }

  lemma RemovalKeepsLawful(v: View, limit: nat, k: Key)
    requires Lawful(v, limit) && k in v.calls
    ensures Lawful(v.(calls := v.calls - {k}), limit)
  {
    RemovalKeepsProper(v, {k}, v.dying);
    forall i ensures |CallsBy(v.calls - {k}, i)| <= limit {
      CallsByRemoved(v.calls, k, i);
    }
  }

  lemma KeysAfterUpdate<K, V>(m: map<K, V>, k: K, v: V)
    requires k in m
    ensures m[k := v].Keys == m.Keys
  {
  }

  lemma ExactAfterAdmission(calls: map<Key, Call>, sessions: map<SessionId, Session>, dying: map<SessionId, Session>, k: Key, c: Call)
    requires Exact(calls, sessions) && Covers(calls, dying) && k.0 in sessions && k.0 !in dying
    ensures Exact(calls[k := c], sessions[k.0 := Session(sessions[k.0].outstanding + {k.1}, true)])
    ensures Covers(calls[k := c], dying)
  {
  }

  lemma ExactAfterRemoval(calls: map<Key, Call>, sessions: map<SessionId, Session>, k: Key)
    requires Exact(calls, sessions) && k in calls
    ensures k.0 in sessions ==> Exact(calls - {k}, sessions[k.0 := Forget(sessions[k.0], k.1)])
    ensures k.0 !in sessions ==> Exact(calls - {k}, sessions)
  {
  }

  lemma CoversAfterRemoval(calls: map<Key, Call>, dying: map<SessionId, Session>, k: Key)
    requires Covers(calls, dying)
    ensures Covers(calls - {k}, dying)
  {
  }

  class SessionManager {
    const limit: nat
    var sessions: map<SessionId, Session>
    var dying: map<SessionId, Session>
    var outstanding: map<Key, Call>
    var inflight: map<string, nat>
    var admitted: nat

    constructor (limit: nat)
      ensures Valid() && State() == START && this.limit == limit
    {
      this.limit := limit;
      sessions, dying, outstanding, inflight, admitted := map[], map[], map[], map[], 0;
    }

    function State(): View
      reads this
    {
      View(sessions.Keys, dying.Keys, outstanding, admitted)
    }

    ghost predicate Valid()
      reads this
    {
      && Lawful(State(), limit)
      && Counted(outstanding, inflight) && NoZero(inflight)
      && Exact(outstanding, sessions) && Covers(outstanding, dying)
    }

    method Open(s: SessionId)
      requires Valid()
      modifies this
      ensures Valid() && State() == Next(old(State()), limit, Step.Open(s))
    {
      if s in sessions || s in dying {
        return;
      }
      StepKeepsLawful(State(), limit, Step.Open(s));
      sessions := sessions[s := Session({}, false)];
    }

    /** admit_call */
    method AdmitCall(s: SessionId, identity: string, r: RequestId) returns (res: Admission)
      requires Valid()
      modifies this
      ensures Valid() && State() == Next(old(State()), limit, Admit(s, identity, r))
      ensures res == Admitted <==> Admissible(old(State()), limit, s, identity, r)
      ensures res == NoSession <==> s !in old(sessions)
      ensures res == DuplicateRequestId <==> s in old(sessions) && (s, r) in old(outstanding)
      ensures res == InflightLimitExceeded ==> |CallsBy(old(outstanding), identity)| == limit
    {
      hide CallsBy;
      if s !in sessions {
        return NoSession;
      }
      var k := (s, r);
      if k in outstanding {
        return DuplicateRequestId;
      }
      var count := if identity in inflight then inflight[identity] else 0;
      assert |CallsBy(outstanding, identity)| == count;
      if count >= limit {
        return InflightLimitExceeded;
      }
      StepKeepsLawful(State(), limit, Admit(s, identity, r));
      var call := Call(identity, admitted, false, false, false);
      CountedAfterAdmission(outstanding, inflight, k, call);
      ExactAfterAdmission(outstanding, sessions, dying, k, call);
      outstanding := outstanding[k := call];
      inflight := inflight[identity := count + 1];
      admitted := admitted + 1;
      var grown := Session(sessions[s].outstanding + {r}, true);
      KeysAfterUpdate(sessions, s, grown);
      sessions := sessions[s := grown];
      assert State() == Next(old(State()), limit, Admit(s, identity, r));
      assert Lawful(State(), limit);
      res := Admitted;
    }

    /** _remove_call: one step of the counter, the session's set and its heartbeat. */
    method RemoveCall(k: Key)
      requires Valid() && k in outstanding
      modifies this`outstanding, this`inflight, this`sessions
      ensures Valid() && State() == old(State()).(calls := old(outstanding) - {k})
    {
      hide CallsBy, Counted, NoZero, Exact, Covers, Lawful;
      CoversAfterRemoval(outstanding, dying, k);
      RemovalKeepsLawful(State(), limit, k);
      CountedAfterRemoval(outstanding, inflight, k);
      ExactAfterRemoval(outstanding, sessions, k);
      var identity := outstanding[k].identity;
      outstanding := outstanding - {k};
      var count := if identity in inflight then inflight[identity] else 0;
      if count <= 1 {
        inflight := inflight - {identity};
      } else {
        inflight := inflight[identity := count - 1];
      }
      if k.0 in sessions {
        var rest := sessions[k.0].outstanding - {k.1};
        var shrunk := Session(rest, if rest == {} then false else sessions[k.0].heartbeat);
        KeysAfterUpdate(sessions, k.0, shrunk);
        sessions := sessions[k.0 := shrunk];
      }
      assert State() == old(State()).(calls := old(outstanding) - {k});
      assert Lawful(State(), limit);
    }

    /** finish_call: a call whose deadline struck is left to the deadline, and waited for. */
    method FinishCall(s: SessionId, r: RequestId) returns (waits: bool)
      requires Valid()
      modifies this`outstanding, this`inflight, this`sessions
      ensures Valid() && State() == Next(old(State()), limit, Finish(s, r))
      ensures waits <==> (s, r) in old(outstanding) && old(outstanding)[(s, r)].timedOut
    {
      var k := (s, r);
      if k !in outstanding {
        return false;
      }
      if outstanding[k].timedOut {
        return true;
      }
      RemoveCall(k);
      waits := false;
    }

    /** Changes the flags of an outstanding call and nothing that is counted. */
    method Mark(k: Key, call: Call, ghost step: Step)
      requires Valid() && k in outstanding
      requires call.identity == outstanding[k].identity && call.serial == outstanding[k].serial
      requires Next(State(), limit, step) == State().(calls := outstanding[k := call])
      modifies this`outstanding
      ensures Valid() && outstanding == old(outstanding)[k := call]
    {
      StepKeepsLawful(State(), limit, step);
      CountedAfterMark(outstanding, inflight, k, call);
      outstanding := outstanding[k := call];
    }

    method DisconnectCall(s: SessionId, r: RequestId)
      requires Valid()
      modifies this`outstanding, this`inflight, this`sessions
      ensures Valid() && State() == Next(old(State()), limit, Disconnect(s, r))
    {
      var k := (s, r);
      if k !in outstanding || outstanding[k].timedOut {
        return;
      }
      if outstanding[k].ready {
        RemoveCall(k);
      } else {
        Mark(k, outstanding[k].(disconnected := true), Disconnect(s, r));
      }
    }

    /** _response_ready, for a response or an error. */
    method ResponseReady(s: SessionId, r: RequestId)
      requires Valid()
      modifies this`outstanding, this`inflight, this`sessions
      ensures Valid() && State() == Next(old(State()), limit, Response(s, r))
    {
      var k := (s, r);
      if k !in outstanding || outstanding[k].timedOut {
        return;
      }
      if outstanding[k].disconnected {
        RemoveCall(k);
      } else {
        Mark(k, outstanding[k].(ready := true), Response(s, r));
      }
    }

    /** The locked part of _deadline: the call is marked and its session taken out of service. */
    method StrikeDeadline(s: SessionId, r: RequestId)
      requires Valid()
      modifies this`outstanding, this`sessions, this`dying
      ensures Valid() && State() == Next(old(State()), limit, Deadline(s, r))
    {
      hide CallsBy;
      var k := (s, r);
      if k !in outstanding {
        return;
      }
      StepKeepsLawful(State(), limit, Deadline(s, r));
      var call := outstanding[k].(timedOut := true);
      CountedAfterMark(outstanding, inflight, k, call);
      outstanding := outstanding[k := call];
      assert Retire(State(), s) == Next(old(State()), limit, Deadline(s, r));
      assert Lawful(Retire(State(), s), limit);
      Take(s);
    }

    /** `self._sessions.pop`, by a deadline or by teardown. */
    method Take(s: SessionId)
      requires Lawful(Retire(State(), s), limit)
      requires Counted(outstanding, inflight) && NoZero(inflight)
      requires Exact(outstanding, sessions) && Covers(outstanding, dying)
      modifies this`sessions, this`dying
      ensures Valid() && State() == Retire(old(State()), s)
    {
      if s !in sessions {
        return;
      }
      dying := dying[s := sessions[s]];
      sessions := sessions - {s};
    }

    method Teardown(s: SessionId)
      requires Valid()
      modifies this`sessions, this`dying
      ensures Valid() && State() == Next(old(State()), limit, Pop(s))
    {
      StepKeepsLawful(State(), limit, Pop(s));
      Take(s);
    }

    /** The locked part of _cleanup_session: every call the session lists is removed, and
        with them every call it has. */
    method CleanupSession(s: SessionId)
      requires Valid()
      modifies this
      ensures Valid() && State() == Next(old(State()), limit, Cleanup(s))
    {
      hide CallsBy, Lawful, Counted, NoZero;
      if s !in dying {
        return;
      }
      ghost var before, gone: set<Key> := State(), {};
      var todo := dying[s].outstanding;
      while todo != {}
        invariant Valid() && State() == before.(calls := before.calls - gone) && dying == old(dying)
        invariant gone <= CallsIn(before.calls, s)
        invariant forall k :: k in before.calls && k.0 == s && k !in gone ==> k.1 in todo
        decreases |todo|
      {
        var r :| r in todo;
        todo := todo - {r};
        if (s, r) in outstanding {
          RemoveCall((s, r));
          assert before.calls - gone - {(s, r)} == before.calls - (gone + {(s, r)});
          gone := gone + {(s, r)};
        }
      }
      assert gone == CallsIn(before.calls, s);
      StepKeepsLawful(before, limit, Cleanup(s));
      dying := dying - {s};
      assert State() == Next(before, limit, Cleanup(s));
    }
  }
}
