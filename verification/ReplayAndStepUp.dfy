/** One-time use under a clock: replay nonces (services/gateway/replay_guard.py) and step-up
    challenges answered with TOTP codes (services/gateway/step_up.py; RFC 6238, section 5.2). */
module ReplayAndStepUp {
  import opened Values

  /** A Redis key set at t to expire after e seconds is there up to and including t + e. */
  predicate Alive<K>(expiry: map<K, real>, k: K, now: real) {
    k in expiry && now <= expiry[k]
  }

  // ----- replay -----

  /** What a client may send as nonce or timestamp. A float may be no number at all. */
  datatype Field = Text(s: string) | Number(n: real) | NotANumber | Infinite | Flag(b: bool) | Other

  datatype Denial = BadNonce | BadTimestamp | OutsideWindow | SeenBefore

  /** One check: the clock reading and the pair. */
  datatype Call = Call(now: real, nonce: Field, timestamp: Field)

  type Nonces = map<string, real>

  function Abs(x: real): real {
    if x < 0.0 then -x else x
  }

  /** `abs(now - timestamp) > window` is false of a float that is not a number. */
  predicate InWindow(window: real, now: real, timestamp: Field) {
    match timestamp
    case Number(n) => Abs(now - n) <= window
    case NotANumber => true
    case _ => false
  }

  function Judge(window: real, isUuid: string -> bool, keys: Nonces, c: Call): Option<Denial> {
    if !c.nonce.Text? || !isUuid(c.nonce.s) then Some(BadNonce)
    else if c.timestamp.Text? || c.timestamp.Flag? || c.timestamp.Other? then Some(BadTimestamp)
    else if !InWindow(window, c.now, c.timestamp) then Some(OutsideWindow)
    else if Alive(keys, c.nonce.s, c.now) then Some(SeenBefore)
    else None
  }

  function Remember(window: real, isUuid: string -> bool, keys: Nonces, c: Call): Nonces {
    if Judge(window, isUuid, keys, c).None? then keys[c.nonce.s := c.now + 2.0 * window] else keys
  }

  class ReplayGuard {
    const window: real
    var keys: Nonces

    constructor (window: real)
      ensures this.window == window && keys == map[]
    {
      this.window := window;
      keys := map[];
    }

    /** check; SET with NX and EX is one atomic step. */
    method Check(isUuid: string -> bool, now: real, nonce: Field, timestamp: Field) returns (denial: Option<Denial>)
      modifies this
      ensures denial == Judge(window, isUuid, old(keys), Call(now, nonce, timestamp))
      ensures keys == Remember(window, isUuid, old(keys), Call(now, nonce, timestamp))
    {
      if !nonce.Text? {
        return Some(BadNonce);
      }
      if !isUuid(nonce.s) {
        return Some(BadNonce);
      }
      if timestamp.Text? || timestamp.Flag? || timestamp.Other? {
        return Some(BadTimestamp);
      }
      if !InWindow(window, now, timestamp) {
        return Some(OutsideWindow);
      }
      if nonce.s in keys && now <= keys[nonce.s] {
        return Some(SeenBefore);
      }
      keys := keys[nonce.s := now + 2.0 * window];
      denial := None;
    }
  }

  /** The nonces remembered after the first n calls. */
  function KeysAfter(window: real, isUuid: string -> bool, calls: seq<Call>, n: nat): Nonces
    requires n <= |calls|
  {
    if n == 0 then map[] else Remember(window, isUuid, KeysAfter(window, isUuid, calls, n - 1), calls[n - 1])
  }

  predicate Accepted(window: real, isUuid: string -> bool, calls: seq<Call>, i: nat)
    requires i < |calls|
  {
    Judge(window, isUuid, KeysAfter(window, isUuid, calls, i), calls[i]).None?
  }

  ghost predicate Clocked(calls: seq<Call>) {
    forall i, j :: 0 <= i <= j < |calls| ==> calls[i].now <= calls[j].now
  }

  lemma {:induction false} NonceIsRemembered(window: real, isUuid: string -> bool, calls: seq<Call>, i: nat, n: nat)
    requires Clocked(calls) && i < n <= |calls| && Accepted(window, isUuid, calls, i)
    ensures
      var keys := KeysAfter(window, isUuid, calls, n);
      calls[i].nonce.s in keys && keys[calls[i].nonce.s] >= calls[i].now + 2.0 * window
  {
    if i + 1 < n {
      NonceIsRemembered(window, isUuid, calls, i, n - 1);
    }
  }

  /** A refused call is told what is so. */
  lemma DenialsAreTrue(window: real, isUuid: string -> bool, keys: Nonces, c: Call)
    ensures match Judge(window, isUuid, keys, c)
            case None => c.nonce.Text? && isUuid(c.nonce.s)
            case Some(BadNonce) => !(c.nonce.Text? && isUuid(c.nonce.s))
            case Some(BadTimestamp) => !c.timestamp.Number? && !c.timestamp.NotANumber? && !c.timestamp.Infinite?
            case Some(OutsideWindow) =>
              c.timestamp.Infinite?
              || (c.timestamp.Number? && !(c.now - window <= c.timestamp.n <= c.now + window))
            case Some(SeenBefore) => c.nonce.Text? && c.nonce.s in keys && c.now <= keys[c.nonce.s]
  {
  }

  /** The j-th call was accepted with that nonce, and t is within twice the window of it. */
  predicate Reserves(window: real, isUuid: string -> bool, calls: seq<Call>, j: nat, nonce: string, t: real)
    requires j < |calls|
  {
    Accepted(window, isUuid, calls, j) && calls[j].nonce == Text(nonce) && t <= calls[j].now + 2.0 * window
  }

  ghost predicate Reserved(window: real, isUuid: string -> bool, calls: seq<Call>, n: nat, nonce: string, t: real)
    requires n <= |calls|
  {
    exists j: nat :: j < n && Reserves(window, isUuid, calls, j, nonce, t)
  }

  /** What the guard remembers are the accepted calls, each for twice the window. */
  lemma {:induction false} KeysAreAcceptedCalls(window: real, isUuid: string -> bool, calls: seq<Call>, n: nat, nonce: string, t: real)
    requires Clocked(calls) && n <= |calls|
    ensures Alive(KeysAfter(window, isUuid, calls, n), nonce, t) <==> Reserved(window, isUuid, calls, n, nonce, t)
  {
    if n > 0 {
      KeysAreAcceptedCalls(window, isUuid, calls, n - 1, nonce, t);
      KeysMove(window, isUuid, calls, n - 1);
      assert Reserved(window, isUuid, calls, n, nonce, t) <==>
        Reserved(window, isUuid, calls, n - 1, nonce, t) || Reserves(window, isUuid, calls, n - 1, nonce, t);
      hide KeysAfter, Judge, Reserved, Accepted;
      if Accepted(window, isUuid, calls, n - 1) && calls[n - 1].nonce == Text(nonce) {
        LaterReserves(window, isUuid, calls, n - 1, nonce, t);
      }
    }
  }

  lemma LaterReserves(window: real, isUuid: string -> bool, calls: seq<Call>, n: nat, nonce: string, t: real)
    requires Clocked(calls) && n < |calls| && Accepted(window, isUuid, calls, n) && calls[n].nonce == Text(nonce)
    ensures Reserved(window, isUuid, calls, n, nonce, t) ==> Reserves(window, isUuid, calls, n, nonce, t)
  {
    hide Accepted;
    if Reserved(window, isUuid, calls, n, nonce, t) {
      var j: nat :| j < n && Reserves(window, isUuid, calls, j, nonce, t);
      assert calls[j].now <= calls[n].now;
    }
  }

  lemma KeysMove(window: real, isUuid: string -> bool, calls: seq<Call>, n: nat)
    requires n < |calls|
    ensures Accepted(window, isUuid, calls, n) ==> calls[n].nonce.Text?
    ensures KeysAfter(window, isUuid, calls, n + 1) ==
      if Accepted(window, isUuid, calls, n) then KeysAfter(window, isUuid, calls, n)[calls[n].nonce.s := calls[n].now + 2.0 * window]
      else KeysAfter(window, isUuid, calls, n)
  {
  }

  /** A call is accepted exactly when its nonce is a UUID, its timestamp is no further than
      the window from the clock either way or is not a number, and the nonce is unused. */
  lemma AcceptedExactlyWhen(window: real, isUuid: string -> bool, calls: seq<Call>, i: nat)
    requires Clocked(calls) && i < |calls|
    ensures Accepted(window, isUuid, calls, i) <==>
      && calls[i].nonce.Text? && isUuid(calls[i].nonce.s)
      && (calls[i].timestamp.NotANumber?
          || (calls[i].timestamp.Number? && calls[i].now - window <= calls[i].timestamp.n <= calls[i].now + window))
      && !Reserved(window, isUuid, calls, i, calls[i].nonce.s, calls[i].now)
  {
    if calls[i].nonce.Text? {
      KeysAreAcceptedCalls(window, isUuid, calls, i, calls[i].nonce.s, calls[i].now);
    }
  }

  /** In every run under a clock that does not go back, the same nonce and timestamp are
      accepted twice only if the timestamp is not a number. */
  lemma NoPairTwice(window: real, isUuid: string -> bool, calls: seq<Call>, i: nat, j: nat)
    requires Clocked(calls) && i < j < |calls|
    requires Accepted(window, isUuid, calls, i) && Accepted(window, isUuid, calls, j)
    requires calls[i].nonce == calls[j].nonce && calls[i].timestamp == calls[j].timestamp
    ensures calls[i].timestamp.NotANumber?
  {
    NonceIsRemembered(window, isUuid, calls, i, j);
  }

  /** A pair whose timestamp is not a number is in the window at all times: it is accepted
      again as soon as its nonce is forgotten. */
  lemma NotANumberIsAcceptedAgain(window: real, isUuid: string -> bool, nonce: string, first: real, again: real)
    requires isUuid(nonce) && window >= 0.0
    ensures
      var calls := [Call(first, Text(nonce), NotANumber), Call(again, Text(nonce), NotANumber)];
      && Accepted(window, isUuid, calls, 0)
      && (Accepted(window, isUuid, calls, 1) <==> again > first + 2.0 * window)
  {
    var calls := [Call(first, Text(nonce), NotANumber), Call(again, Text(nonce), NotANumber)];
    assert KeysAfter(window, isUuid, calls, 0) == map[];
    assert KeysAfter(window, isUuid, calls, 1) == map[nonce := first + 2.0 * window];
  }

  /** The margin is nil: a pair stamped `window` ahead is still in its window at the very
      instant its nonce expires, and is refused there only because the key is still alive. */
  lemma DedupIsTight(window: real, now: real, nonce: string)
    requires window >= 0.0
    ensures
      var expiry := now + 2.0 * window;
      var stamp := Number(now + window);
      && InWindow(window, now, stamp) && InWindow(window, expiry, stamp)
      && Alive(map[nonce := expiry], nonce, expiry)
      && forall later :: later > expiry ==> !InWindow(window, later, stamp) && !Alive(map[nonce := expiry], nonce, later)
  {
  }

  // ----- TOTP -----

  const STEP := 30
  const SKEW := 1
  const DEDUP := 90.0

  function Counter(at: real): int {
    (at / (STEP as real)).Floor
  }

  /** The key behind a base32 secret, and the code for a counter. */
  datatype Totp = Totp(decode: string -> Option<string>, code: (string, int) -> string)

  /** The code is the one of the current step or of a neighbour. */
  predicate Verifies(t: Totp, secret: string, code: string, at: real) {
    t.decode(secret).Some?
    && exists counter :: Counter(at) - SKEW <= counter <= Counter(at) + SKEW && CodeOf(t, t.decode(secret).value, counter) == code
  }

  function CodeOf(t: Totp, key: string, counter: int): string {
    t.code(key, counter)
  }

  method VerifyTotp(t: Totp, secret: string, code: string, at: real) returns (ok: bool)
    ensures ok == Verifies(t, secret, code, at)
  {
    var key := t.decode(secret);
    if key.None? {
      return false;
    }
    var now := Counter(at);
    ok := false;
    for counter := now - SKEW to now + SKEW + 1
      invariant ok <==> exists c :: now - SKEW <= c < counter && CodeOf(t, key.value, c) == code
    {
      if CodeOf(t, key.value, counter) == code { ok := true; }
    }
  }

  /** The code answers for this counter at this time. */
  predicate Encodes(t: Totp, secret: string, code: string, counter: int, at: real) {
    t.decode(secret).Some? && CodeOf(t, t.decode(secret).value, counter) == code && -SKEW <= counter - Counter(at) <= SKEW
  }

  lemma VerifiesForSomeCounter(t: Totp, secret: string, code: string, at: real)
    ensures Verifies(t, secret, code, at) <==> exists counter :: Encodes(t, secret, code, counter, at)
    ensures forall counter :: Encodes(t, secret, code, counter, at) <==>
      && t.decode(secret).Some? && CodeOf(t, t.decode(secret).value, counter) == code
      && (30 * (counter - 1)) as real <= at < (30 * (counter + 2)) as real
  {
    var q := at / 30.0;
    assert at == q * 30.0 && q.Floor as real <= q < q.Floor as real + 1.0;
    if Verifies(t, secret, code, at) {
      var counter :| Counter(at) - SKEW <= counter <= Counter(at) + SKEW && CodeOf(t, t.decode(secret).value, counter) == code;
      assert Encodes(t, secret, code, counter, at);
    }
  }

  /** One counter's code verifies over ninety seconds and not a moment more, which is what
      its dedup key lasts. */
  lemma CodeSpan(t: Totp, secret: string, code: string, counter: int, at: real)
    requires t.decode(secret).Some? && CodeOf(t, t.decode(secret).value, counter) == code
    ensures Encodes(t, secret, code, counter, at)
       <==> ((counter - 1) * STEP) as real <= at < ((counter - 1) * STEP) as real + DEDUP
  {
    var q := at / 30.0;
    assert at == q * 30.0;
    assert q.Floor as real <= q < q.Floor as real + 1.0;
  }

  // ----- challenges -----

  /** What a challenge was issued for. */
  datatype Subject = Subject(identity: string, server: string, tool: string, argumentsHash: string)

  datatype Refusal = UnknownChallenge | OtherCaller | OtherArguments | NoFactor | BadProof | UsedCode

  datatype Store = Store(
    challenges: map<string, Subject>,
    deadlines: map<string, real>,
    codes: map<(string, string), real>)

  datatype Op =
    | Create(now: real, id: string, subject: Subject, ttl: real)
    | Redeem(now: real, id: string, subject: Subject, proof: Option<string>, secret: string)

  predicate Pending(s: Store, id: string, now: real) {
    id in s.challenges && Alive(s.deadlines, id, now)
  }

  /** redeem's answer; None is success. */
  function Answer(t: Totp, s: Store, o: Op): Option<Refusal>
    requires o.Redeem?
  {
    if !Pending(s, o.id, o.now) then Some(UnknownChallenge)
    else
      var issued := s.challenges[o.id];
      if (issued.identity, issued.server, issued.tool) != (o.subject.identity, o.subject.server, o.subject.tool) then Some(OtherCaller)
      else if issued.argumentsHash != o.subject.argumentsHash then Some(OtherArguments)
      else if o.secret == "" then Some(NoFactor)
      else if o.proof.None? || !Verifies(t, o.secret, o.proof.value, o.now) then Some(BadProof)
      else if Alive(s.codes, (o.subject.identity, o.proof.value), o.now) then Some(UsedCode)
      else None
  }

  predicate Redeemed(t: Totp, s: Store, o: Op) {
    o.Redeem? && Answer(t, s, o).None?
  }

  function Next(t: Totp, s: Store, o: Op): Store {
    match o
    case Create(now, id, subject, ttl) =>
      s.(challenges := s.challenges[id := subject], deadlines := s.deadlines[id := now + ttl])
    case Redeem(now, id, subject, proof, _) =>
      Store(s.challenges - {id}, s.deadlines - {id},
            if Redeemed(t, s, o) then s.codes[(subject.identity, proof.value) := now + DEDUP] else s.codes)
  }

  class ChallengeStore {
    var challenges: map<string, Subject>
    var deadlines: map<string, real>
    var codes: map<(string, string), real>

    constructor ()
      ensures State() == Store(map[], map[], map[])
    {
      challenges, deadlines, codes := map[], map[], map[];
    }

    function State(): Store
      reads this
    {
      Store(challenges, deadlines, codes)
    }

    method CreateChallenge(t: Totp, now: real, id: string, subject: Subject, ttl: real)
      modifies this
      ensures State() == Next(t, old(State()), Create(now, id, subject, ttl))
    {
      challenges := challenges[id := subject];
      deadlines := deadlines[id := now + ttl];
    }

    /** redeem: the challenge is consumed before anything else is looked at. */
    method RedeemChallenge(t: Totp, now: real, id: string, subject: Subject, proof: Option<string>, secret: string)
      returns (refusal: Option<Refusal>)
      modifies this
      ensures refusal == Answer(t, old(State()), Redeem(now, id, subject, proof, secret))
      ensures State() == Next(t, old(State()), Redeem(now, id, subject, proof, secret))
    {
      var pending := id in challenges && id in deadlines && now <= deadlines[id];
      var issued := if pending then challenges[id] else subject;
      challenges, deadlines := challenges - {id}, deadlines - {id};
      if !pending {
        return Some(UnknownChallenge);
      }
      if issued.identity != subject.identity || issued.server != subject.server || issued.tool != subject.tool {
        return Some(OtherCaller);
      }
      if issued.argumentsHash != subject.argumentsHash {
        return Some(OtherArguments);
      }
      if secret == "" {
        return Some(NoFactor);
      }
      if proof.None? {
        return Some(BadProof);
      }
      var ok := VerifyTotp(t, secret, proof.value, now);
      if !ok {
        return Some(BadProof);
      }
      var k := (subject.identity, proof.value);
      if k in codes && now <= codes[k] {
        return Some(UsedCode);
      }
      codes := codes[k := now + DEDUP];
      refusal := None;
    }
  }

  // ----- runs of the challenge store -----

  function StateAt(t: Totp, ops: seq<Op>, n: nat): Store
    requires n <= |ops|
  {
    if n == 0 then Store(map[], map[], map[]) else Next(t, StateAt(t, ops, n - 1), ops[n - 1])
  }

  predicate Succeeds(t: Totp, ops: seq<Op>, i: nat)
    requires i < |ops|
  {
    Redeemed(t, StateAt(t, ops, i), ops[i])
  }

  ghost predicate Ordered(ops: seq<Op>) {
    forall i, j :: 0 <= i <= j < |ops| ==> ops[i].now <= ops[j].now
  }

  /** A pending challenge is one that was created and not asked for since. */
  lemma {:induction false} WhereCreated(t: Totp, ops: seq<Op>, n: nat, id: string) returns (k: nat)
    requires n <= |ops| && id in StateAt(t, ops, n).challenges && id in StateAt(t, ops, n).deadlines
    ensures k < n && ops[k].Create? && ops[k].id == id
    ensures StateAt(t, ops, n).challenges[id] == ops[k].subject && StateAt(t, ops, n).deadlines[id] == ops[k].now + ops[k].ttl
    ensures forall m :: k < m < n ==> ops[m].id != id
  {
    if ops[n - 1].Create? && ops[n - 1].id == id {
      k := n - 1;
    } else {
      k := WhereCreated(t, ops, n - 1, id);
    }
  }

  /** Every redemption answers a challenge that was issued to the same identity, for the
      same server, tool and arguments, is still in time, and was never asked for before. */
  lemma RedemptionAnswersItsChallenge(t: Totp, ops: seq<Op>, i: nat) returns (k: nat)
    requires i < |ops| && Succeeds(t, ops, i)
    ensures k < i && ops[k].Create? && ops[k].id == ops[i].id && ops[k].subject == ops[i].subject
    ensures ops[i].now <= ops[k].now + ops[k].ttl
    ensures forall m :: k < m < i ==> ops[m].id != ops[i].id
  {
    k := WhereCreated(t, ops, i, ops[i].id);
  }

  /** A refused redemption is told what is so. */
  lemma RefusalsAreTrue(t: Totp, s: Store, o: Op)
    requires o.Redeem?
    ensures match Answer(t, s, o)
            case None => o.id in s.challenges && s.challenges[o.id] == o.subject && o.proof.Some?
            case Some(UnknownChallenge) => o.id !in s.challenges || o.id !in s.deadlines || s.deadlines[o.id] < o.now
            case Some(OtherCaller) => o.id in s.challenges && s.challenges[o.id] != o.subject
            case Some(OtherArguments) => o.id in s.challenges && s.challenges[o.id].argumentsHash != o.subject.argumentsHash
            case Some(NoFactor) => o.secret == ""
            case Some(BadProof) =>
              o.proof.None? || forall counter :: !Encodes(t, o.secret, o.proof.value, counter, o.now)
            case Some(UsedCode) =>
              o.proof.Some? && (o.subject.identity, o.proof.value) in s.codes && o.now <= s.codes[(o.subject.identity, o.proof.value)]
  {
    if o.proof.Some? {
      VerifiesForSomeCounter(t, o.secret, o.proof.value, o.now);
    }
  }

  /** The challenge was issued by the k-th operation and not asked for since, for the same
      call, and is in time. */
  predicate IssuedFor(ops: seq<Op>, k: nat, i: nat)
    requires k < i < |ops| && ops[i].Redeem?
  {
    && ops[k].Create? && ops[k].id == ops[i].id && ops[k].subject == ops[i].subject
    && ops[i].now <= ops[k].now + ops[k].ttl
    && forall m :: k < m < i ==> ops[m].id != ops[i].id
  }

  /** The j-th operation redeemed that code for the identity, less than ninety seconds ago. */
  predicate Uses(t: Totp, ops: seq<Op>, j: nat, identity: string, code: string, at: real)
    requires j < |ops|
  {
    && ops[j].Redeem? && Succeeds(t, ops, j)
    && ops[j].subject.identity == identity && ops[j].proof == Some(code) && at <= ops[j].now + 90.0
  }

  ghost predicate Used(t: Totp, ops: seq<Op>, n: nat, identity: string, code: string, at: real)
    requires n <= |ops|
  {
    exists j: nat :: j < n && Uses(t, ops, j, identity, code, at)
  }

  lemma {:induction false} PendingSince(t: Totp, ops: seq<Op>, k: nat, n: nat)
    requires k < n <= |ops| && ops[k].Create? && forall m :: k < m < n ==> ops[m].id != ops[k].id
    ensures
      var s := StateAt(t, ops, n);
      && ops[k].id in s.challenges && s.challenges[ops[k].id] == ops[k].subject
      && ops[k].id in s.deadlines && s.deadlines[ops[k].id] == ops[k].now + ops[k].ttl
  {
    if k + 1 < n {
      PendingSince(t, ops, k, n - 1);
    }
  }

  lemma CodesMove(t: Totp, ops: seq<Op>, n: nat)
    requires n < |ops|
    ensures Succeeds(t, ops, n) ==> ops[n].Redeem? && ops[n].proof.Some?
    ensures StateAt(t, ops, n + 1).codes ==
      if Succeeds(t, ops, n) then StateAt(t, ops, n).codes[(ops[n].subject.identity, ops[n].proof.value) := ops[n].now + DEDUP]
      else StateAt(t, ops, n).codes
  {
  }

  /** The codes remembered are those redeemed, each for ninety seconds. */
  lemma {:induction false} CodesAreRedemptions(t: Totp, ops: seq<Op>, n: nat, identity: string, code: string, at: real)
    requires Ordered(ops) && n <= |ops|
    ensures Alive(StateAt(t, ops, n).codes, (identity, code), at) <==> Used(t, ops, n, identity, code, at)
  {
    if n > 0 {
      CodesAreRedemptions(t, ops, n - 1, identity, code, at);
      CodesMove(t, ops, n - 1);
      assert Used(t, ops, n, identity, code, at) <==>
        Used(t, ops, n - 1, identity, code, at) || Uses(t, ops, n - 1, identity, code, at);
      hide StateAt, Answer, Used, Succeeds;
      if Succeeds(t, ops, n - 1) && ops[n - 1].subject.identity == identity && ops[n - 1].proof == Some(code) {
        LaterUses(t, ops, n - 1, identity, code, at);
      }
    }
  }

  lemma LaterUses(t: Totp, ops: seq<Op>, n: nat, identity: string, code: string, at: real)
    requires Ordered(ops) && n < |ops| && Succeeds(t, ops, n) && ops[n].Redeem?
    requires ops[n].subject.identity == identity && ops[n].proof == Some(code)
    ensures Used(t, ops, n, identity, code, at) ==> Uses(t, ops, n, identity, code, at)
  {
    hide Succeeds;
    if Used(t, ops, n, identity, code, at) {
      var j: nat :| j < n && Uses(t, ops, j, identity, code, at);
      assert ops[j].now <= ops[n].now;
    }
  }

  /** Over every run a redemption succeeds exactly when the challenge was issued for the same
      call and not asked for since, is in time, the caller has a secret, the proof is the code
      of a counter within one step of the clock, and the code was not used already. */
  lemma RedeemedExactlyWhen(t: Totp, ops: seq<Op>, i: nat)
    requires Ordered(ops) && i < |ops| && ops[i].Redeem?
    ensures Succeeds(t, ops, i) <==>
      && (exists k: nat :: k < i && IssuedFor(ops, k, i))
      && ops[i].secret != "" && ops[i].proof.Some?
      && (exists counter :: Encodes(t, ops[i].secret, ops[i].proof.value, counter, ops[i].now))
      && !Used(t, ops, i, ops[i].subject.identity, ops[i].proof.value, ops[i].now)
  {
    if ops[i].proof.Some? {
      VerifiesForSomeCounter(t, ops[i].secret, ops[i].proof.value, ops[i].now);
      CodesAreRedemptions(t, ops, i, ops[i].subject.identity, ops[i].proof.value, ops[i].now);
    }
    if Succeeds(t, ops, i) {
      var k := RedemptionAnswersItsChallenge(t, ops, i);
      assert IssuedFor(ops, k, i);
    }
    if k: nat :| k < i && IssuedFor(ops, k, i) {
      PendingSince(t, ops, k, i);
    }
  }

  /** With ids issued once, a challenge is redeemed at most once, and not at all after any
      earlier attempt on it. */
  lemma ChallengeRedeemedOnce(t: Totp, ops: seq<Op>, i: nat, j: nat)
    requires forall a, b :: 0 <= a < b < |ops| && ops[a].Create? && ops[b].Create? ==> ops[a].id != ops[b].id
    requires i < j < |ops| && ops[i].Redeem? && ops[j].Redeem? && ops[i].id == ops[j].id && Succeeds(t, ops, j)
    ensures Answer(t, StateAt(t, ops, i), ops[i]) == Some(UnknownChallenge)
  {
    var k := RedemptionAnswersItsChallenge(t, ops, j);
    assert i <= k;
    if Pending(StateAt(t, ops, i), ops[i].id, ops[i].now) {
      var earlier := WhereCreated(t, ops, i, ops[i].id);
    }
  }

  lemma {:induction false} CodeIsRemembered(t: Totp, ops: seq<Op>, i: nat, n: nat)
    requires Ordered(ops) && i < n <= |ops| && Succeeds(t, ops, i)
    ensures
      var k := (ops[i].subject.identity, ops[i].proof.value);
      k in StateAt(t, ops, n).codes && StateAt(t, ops, n).codes[k] >= ops[i].now + DEDUP
  {
    if i + 1 < n {
      CodeIsRemembered(t, ops, i, n - 1);
    }
  }

  /** In every run an identity redeems a code at most once for the counter it encodes. */
  lemma CodeRedeemedOncePerCounter(t: Totp, ops: seq<Op>, i: nat, j: nat, counter: int)
    requires Ordered(ops) && i < j < |ops| && Succeeds(t, ops, i) && Succeeds(t, ops, j)
    requires ops[i].subject.identity == ops[j].subject.identity && ops[i].secret == ops[j].secret
    requires ops[i].proof == ops[j].proof
    requires Encodes(t, ops[i].secret, ops[i].proof.value, counter, ops[i].now)
    ensures !Encodes(t, ops[j].secret, ops[j].proof.value, counter, ops[j].now)
  {
    CodeIsRemembered(t, ops, i, j);
    CodeSpan(t, ops[i].secret, ops[i].proof.value, counter, ops[i].now);
    CodeSpan(t, ops[j].secret, ops[j].proof.value, counter, ops[j].now);
  }
}
