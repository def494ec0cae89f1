/**
 * The EventWaiter: a registry of pending (condition, action) entries bucketed by event
 * class. Dispatch walks the event's class chain; in each bucket it attempts a snapshot of
 * the entries in insertion order, runs the action of every satisfied one and removes
 * exactly those. A registration with a timeout arms a timer whose expiry removes the
 * entry and runs the timeout task if the entry was still pending.
 *
 * Conditions, actions and timeout tasks are user code. An entry names them by id; what a
 * condition answers and which registrations an action makes while it runs are given by
 * a `Callbacks` value, so re-entrant registrations happen inside the pass, as they do in
 * the source.
 */
module Waiter {
  import opened Wrappers
  import opened Host

  type ConditionId = nat
  type ActionId = nat
  type TaskId = nat

  /** A pending entry (a WaitingEvent object); `id` stands for the object's identity. */
  datatype Waiting = Waiting(id: nat, condition: ConditionId, action: ActionId)

  /** The arguments of one waitForEvent call. `unit` is None for a null TimeUnit. */
  datatype Request = Request(classType: ClassName, condition: ConditionId, action: ActionId,
                             timeout: int, unit: Option<TimeUnit>, timeoutAction: Option<TaskId>)

  /** A scheduled timeout: the bucket its entry was added to, the entry, the task to run. */
  datatype Timer = Timer(classType: ClassName, entry: Waiting, timeoutAction: Option<TaskId>)

  /** What has run so far: an action on an event, or a timeout task. */
  datatype Fired = Ran(action: ActionId, event: Event) | TimedOut(task: TaskId)

  /**
   * The behaviour of user code: the answer of each condition on each event, and the
   * waitForEvent calls each action makes, in order, when it runs on an event.
   */
  datatype Callbacks = Callbacks(test: (ConditionId, Event) -> bool,
                                 react: (ActionId, Event) -> seq<Request>)

  /** The waiter's whole state; `nextId` is the identity the next entry receives. */
  datatype State = State(buckets: map<ClassName, seq<Waiting>>, timers: seq<Timer>,
                         log: seq<Fired>, nextId: nat)

  const Empty := State(map[], [], [], 0)

  // ---------------------------------------------------------------- invariant

  predicate IdsBelow(ws: seq<Waiting>, n: nat) {
    forall i :: 0 <= i < |ws| ==> ws[i].id < n
  }

  predicate IdsAtLeast(ws: seq<Waiting>, n: nat) {
    forall i :: 0 <= i < |ws| ==> n <= ws[i].id
  }

  predicate DistinctIds(ws: seq<Waiting>) {
    forall i, j :: 0 <= i < j < |ws| ==> ws[i].id != ws[j].id
  }

  /** Every pending entry has an identity below `nextId`, and a bucket holds no entry twice. */
  predicate Consistent(s: State) {
    forall c :: c in s.buckets ==> IdsBelow(s.buckets[c], s.nextId) && DistinctIds(s.buckets[c])
  }

  /** The bucket of class `c`, empty when there is none. */
  function Bucket(s: State, c: ClassName): seq<Waiting> {
    if c in s.buckets then s.buckets[c] else []
  }

  /**
   * `t` is reachable from `s` by registrations and fired actions only: no bucket
   * disappears or loses an entry, entries appended to a bucket are newer than every entry
   * of `s`, and the log and the timers only grow.
   */
  predicate Extends(s: State, t: State) {
    && s.buckets.Keys <= t.buckets.Keys
    && s.nextId <= t.nextId
    && s.log <= t.log
    && s.timers <= t.timers
    && forall c :: c in t.buckets ==>
         Bucket(s, c) <= t.buckets[c] && IdsAtLeast(t.buckets[c][|Bucket(s, c)|..], s.nextId)
  }

  lemma ExtendsRefl(s: State)
    ensures Extends(s, s)
  {
    forall c | c in s.buckets
      ensures IdsAtLeast(s.buckets[c][|Bucket(s, c)|..], s.nextId)
    {
      assert s.buckets[c][|Bucket(s, c)|..] == [];
    }
  }

  lemma {:induction false} ExtendsTrans(s: State, u: State, t: State)
    requires Extends(s, u) && Extends(u, t)
    ensures Extends(s, t)
  {
    forall c | c in t.buckets
      ensures Bucket(s, c) <= t.buckets[c] && IdsAtLeast(t.buckets[c][|Bucket(s, c)|..], s.nextId)
    {
      var bs, bu, bt := Bucket(s, c), Bucket(u, c), t.buckets[c];
      if c in u.buckets {
        assert bs <= bu && bu <= bt;
        forall i | 0 <= i < |bt[|bs|..]| ensures s.nextId <= bt[|bs|..][i].id {
          var k := |bs| + i;
          if k < |bu| {
            assert bt[k] == bu[k] == bu[|bs|..][k - |bs|];
          } else {
            assert bt[k] == bt[|bu|..][k - |bu|];
          }
        }
      } else {
        assert c !in s.buckets;
        assert bs == [] && bu == [];
        forall i | 0 <= i < |bt| ensures s.nextId <= bt[i].id {
          assert bt[i] == bt[|bu|..][i];
        }
      }
    }
  }

  // ---------------------------------------------------------------- registration

  /** Whether a registration schedules a timeout: a positive timeout and a non-null unit. */
  predicate Arms(r: Request) {
    r.timeout > 0 && r.unit.Some?
  }

  /** The arguments the three-argument overload of waitForEvent passes on. */
  function Untimed(classType: ClassName, condition: ConditionId, action: ActionId): (r: Request)
    ensures !Arms(r)
  {
    Request(classType, condition, action, -1, None, None)
  }

  /** One waitForEvent call: a new entry at the end of the bucket, and maybe a timer. */
  function Register(s: State, r: Request): (t: State)
    ensures r.classType in t.buckets && t.buckets.Keys == s.buckets.Keys + {r.classType}
    ensures t.buckets[r.classType] == Bucket(s, r.classType) + [Waiting(s.nextId, r.condition, r.action)]
    ensures forall c :: c in s.buckets && c != r.classType ==> t.buckets[c] == s.buckets[c]
    ensures t.timers == if Arms(r) then s.timers + [Timer(r.classType, t.buckets[r.classType][|Bucket(s, r.classType)|], r.timeoutAction)] else s.timers
    ensures t.log == s.log && t.nextId == s.nextId + 1
  {
    var w := Waiting(s.nextId, r.condition, r.action);
    State(s.buckets[r.classType := Bucket(s, r.classType) + [w]],
          if Arms(r) then s.timers + [Timer(r.classType, w, r.timeoutAction)] else s.timers,
          s.log, s.nextId + 1)
  }

  /** The new entry is fresh: no pending entry has its identity, so the invariant is kept. */
  lemma RegisterKeepsConsistent(s: State, r: Request)
    requires Consistent(s)
    ensures Consistent(Register(s, r)) && Extends(s, Register(s, r))
    ensures forall c :: c in s.buckets ==> Waiting(s.nextId, r.condition, r.action) !in s.buckets[c]
  {
    var t := Register(s, r);
    forall c | c in t.buckets
      ensures IdsBelow(t.buckets[c], t.nextId) && DistinctIds(t.buckets[c])
      ensures Bucket(s, c) <= t.buckets[c] && IdsAtLeast(t.buckets[c][|Bucket(s, c)|..], s.nextId)
    {
      if c == r.classType {
        var b := Bucket(s, c);
        assert IdsBelow(b, s.nextId);
        assert t.buckets[c][|b|..] == [Waiting(s.nextId, r.condition, r.action)];
      } else {
        assert t.buckets[c][|Bucket(s, c)|..] == [];
      }
    }
  }

  /** The registrations an action makes, applied in order. */
  function RegisterAll(s: State, rs: seq<Request>): (t: State)
    ensures t.log == s.log && t.nextId == s.nextId + |rs| && s.buckets.Keys <= t.buckets.Keys
  {
    if rs == [] then s else Register(RegisterAll(s, rs[..|rs| - 1]), rs[|rs| - 1])
  }

  lemma {:induction false} RegisterAllExtends(s: State, rs: seq<Request>)
    requires Consistent(s)
    ensures Consistent(RegisterAll(s, rs)) && Extends(s, RegisterAll(s, rs))
  {
    if rs == [] {
      ExtendsRefl(s);
    } else {
      var u := RegisterAll(s, rs[..|rs| - 1]);
      RegisterAllExtends(s, rs[..|rs| - 1]);
      RegisterKeepsConsistent(u, rs[|rs| - 1]);
      ExtendsTrans(s, u, RegisterAll(s, rs));
    }
  }

  // ---------------------------------------------------------------- dispatch

  /** The actions of `ws` recorded as run on `e`, in order. */
  function RanAll(ws: seq<Waiting>, e: Event): (r: seq<Fired>)
    ensures |r| == |ws| && forall i :: 0 <= i < |ws| ==> r[i] == Ran(ws[i].action, e)
  {
    if ws == [] then [] else RanAll(ws[..|ws| - 1], e) + [Ran(ws[|ws| - 1].action, e)]
  }

  /** The entries of `ws` whose condition holds on `e`, in order. */
  function Satisfied(ws: seq<Waiting>, e: Event, cb: Callbacks): seq<Waiting> {
    if ws == [] then []
    else Satisfied(ws[..|ws| - 1], e, cb) + if cb.test(ws[|ws| - 1].condition, e) then [ws[|ws| - 1]] else []
  }

  /** The entries of `ws` whose condition fails on `e`, in order. */
  function Unsatisfied(ws: seq<Waiting>, e: Event, cb: Callbacks): seq<Waiting> {
    if ws == [] then []
    else Unsatisfied(ws[..|ws| - 1], e, cb) + if cb.test(ws[|ws| - 1].condition, e) then [] else [ws[|ws| - 1]]
  }

  /**
   * WaitingEvent.attempt: test the condition; if it holds, run the action (recording it
   * and applying the registrations it makes). Answers whether the condition held.
   */
  function Attempt(s: State, w: Waiting, e: Event, cb: Callbacks): (r: (State, bool))
    ensures r.1 == cb.test(w.condition, e)
    ensures r.0.log == if r.1 then s.log + [Ran(w.action, e)] else s.log
    ensures !r.1 ==> r.0 == s
    ensures s.buckets.Keys <= r.0.buckets.Keys
  {
    if cb.test(w.condition, e) then
      (RegisterAll(s.(log := s.log + [Ran(w.action, e)]), cb.react(w.action, e)), true)
    else (s, false)
  }

  lemma AttemptExtends(s: State, w: Waiting, e: Event, cb: Callbacks)
    requires Consistent(s)
    ensures Consistent(Attempt(s, w, e, cb).0) && Extends(s, Attempt(s, w, e, cb).0)
  {
    if cb.test(w.condition, e) {
      var fired := s.(log := s.log + [Ran(w.action, e)]);
      ExtendsRefl(s);
      assert Extends(s, fired);
      RegisterAllExtends(fired, cb.react(w.action, e));
      ExtendsTrans(s, fired, Attempt(s, w, e, cb).0);
    } else {
      ExtendsRefl(s);
    }
  }

  /** The stream over the snapshot: each entry attempted in order; the satisfied ones collected. */
  datatype Attempted = Attempted(state: State, matched: seq<Waiting>)

  function AttemptAll(s: State, ws: seq<Waiting>, e: Event, cb: Callbacks): (r: Attempted)
    ensures s.buckets.Keys <= r.state.buckets.Keys
  {
    if ws == [] then Attempted(s, [])
    else
      var a := AttemptAll(s, ws[..|ws| - 1], e, cb);
      var step := Attempt(a.state, ws[|ws| - 1], e, cb);
      Attempted(step.0, a.matched + if step.1 then [ws[|ws| - 1]] else [])
  }

  lemma {:induction false} AttemptAllExtends(s: State, ws: seq<Waiting>, e: Event, cb: Callbacks)
    requires Consistent(s)
    ensures Consistent(AttemptAll(s, ws, e, cb).state) && Extends(s, AttemptAll(s, ws, e, cb).state)
  {
    if ws == [] {
      ExtendsRefl(s);
    } else {
      var a := AttemptAll(s, ws[..|ws| - 1], e, cb);
      AttemptAllExtends(s, ws[..|ws| - 1], e, cb);
      AttemptExtends(a.state, ws[|ws| - 1], e, cb);
      ExtendsTrans(s, a.state, AttemptAll(s, ws, e, cb).state);
    }
  }

  /** list.removeAll(matched): drop every element that is in `m`, keeping the order of the rest. */
  function RemoveAll(ws: seq<Waiting>, m: seq<Waiting>): (r: seq<Waiting>)
    ensures forall w :: w in r <==> w in ws && w !in m
  {
    if ws == [] then []
    else RemoveAll(ws[..|ws| - 1], m) + if ws[|ws| - 1] in m then [] else [ws[|ws| - 1]]
  }

  /** The state `u` after list.removeAll(m) on the bucket of `c`. */
  function RemoveMatched(u: State, c: ClassName, m: seq<Waiting>): State
    requires c in u.buckets
  {
    u.(buckets := u.buckets[c := RemoveAll(u.buckets[c], m)])
  }

  /**
   * The work handle does for one class `c`: if it has a bucket, attempt a snapshot of it,
   * then remove from the bucket (as it is after the actions ran) the satisfied entries.
   */
  function Pass(s: State, c: ClassName, e: Event, cb: Callbacks): (t: State)
  {
    if c in s.buckets then
      var a := AttemptAll(s, s.buckets[c], e, cb);
      RemoveMatched(a.state, c, a.matched)
    else s
  }

  lemma RemoveMatchedKeepsConsistent(u: State, c: ClassName, m: seq<Waiting>)
    requires Consistent(u) && c in u.buckets
    ensures Consistent(RemoveMatched(u, c, m))
  {
    RemoveAllKeepsIds(u.buckets[c], m, u.nextId);
  }

  lemma PassKeepsConsistent(s: State, c: ClassName, e: Event, cb: Callbacks)
    requires Consistent(s)
    ensures Consistent(Pass(s, c, e, cb))
  {
    if c in s.buckets {
      var a := AttemptAll(s, s.buckets[c], e, cb);
      AttemptAllExtends(s, s.buckets[c], e, cb);
      RemoveMatchedKeepsConsistent(a.state, c, a.matched);
    }
  }

  lemma {:induction false} RemoveAllKeepsIds(ws: seq<Waiting>, m: seq<Waiting>, n: nat)
    requires IdsBelow(ws, n) && DistinctIds(ws)
    ensures IdsBelow(RemoveAll(ws, m), n) && DistinctIds(RemoveAll(ws, m))
  {
    if ws != [] {
      var init := ws[..|ws| - 1];
      RemoveAllKeepsIds(init, m, n);
      var r := RemoveAll(init, m);
      forall i | 0 <= i < |r| ensures r[i].id != ws[|ws| - 1].id {
        assert r[i] in init;
      }
    }
  }

  /** handle over the classes `cs`, in order. */
  function PassAll(s: State, cs: seq<ClassName>, e: Event, cb: Callbacks): State {
    if cs == [] then s else Pass(PassAll(s, cs[..|cs| - 1], e, cb), cs[|cs| - 1], e, cb)
  }

  /**
   * The classes handle looks at: every class of the chain except the root. Its ensures only
   * spell the slice out for the lemmas that use it; what it means for handle is stated by
   * DispatchSparesRoot.
   */
  function Checked(classes: seq<ClassName>): (r: seq<ClassName>)
    ensures |classes| > 0 ==> r == classes[..|classes| - 1]
    ensures |classes| == 0 ==> r == []
  {
    if |classes| == 0 then [] else classes[..|classes| - 1]
  }

  /** handle(event). */
  function Dispatch(s: State, e: Event, cb: Callbacks): State {
    PassAll(s, Checked(e.classes), e, cb)
  }

  // ---------------------------------------------------------------- expiry

  /** The position of the first occurrence of `w` in `ws`. */
  function FirstIndex(ws: seq<Waiting>, w: Waiting): (i: nat)
    requires w in ws
    ensures i < |ws| && ws[i] == w && w !in ws[..i]
  {
    if ws[0] == w then 0
    else
      var i := 1 + FirstIndex(ws[1..], w);
      assert ws[..i] == [ws[0]] + ws[1..][..i - 1];
      i
  }

  /** list.remove(w): drop the first occurrence of `w`, if any. */
  function RemoveFirst(ws: seq<Waiting>, w: Waiting): seq<Waiting> {
    if w in ws then ws[..FirstIndex(ws, w)] + ws[FirstIndex(ws, w) + 1..] else ws
  }

  /** Whether the timer's entry is still pending in its bucket. */
  predicate Pending(s: State, t: Timer) {
    t.classType in s.buckets && t.entry in s.buckets[t.classType]
  }

  /**
   * The body of the scheduled timeout task: if removing the entry from its bucket
   * succeeds, run the timeout task when there is one.
   */
  function Expired(s: State, t: Timer): State {
    if Pending(s, t) then
      State(s.buckets[t.classType := RemoveFirst(s.buckets[t.classType], t.entry)], s.timers,
            if t.timeoutAction.Some? then s.log + [TimedOut(t.timeoutAction.value)] else s.log,
            s.nextId)
    else s
  }

  lemma ExpiredKeepsConsistent(s: State, t: Timer)
    requires Consistent(s)
    ensures Consistent(Expired(s, t))
  {
    if Pending(s, t) {
      RemoveFirstKeepsIds(s.buckets[t.classType], t.entry, s.nextId);
    }
  }

  lemma RemoveFirstKeepsIds(ws: seq<Waiting>, w: Waiting, n: nat)
    requires IdsBelow(ws, n) && DistinctIds(ws)
    ensures IdsBelow(RemoveFirst(ws, w), n) && DistinctIds(RemoveFirst(ws, w))
  {
    if w in ws {
      var i := FirstIndex(ws, w);
      var r := RemoveFirst(ws, w);
      assert |r| == |ws| - 1;
      assert forall a :: 0 <= a < |r| ==> r[a] == ws[if a < i then a else a + 1];
    }
  }

  // ---------------------------------------------------------------- properties

  lemma {:induction false} PassAllKeepsConsistent(s: State, cs: seq<ClassName>, e: Event, cb: Callbacks)
    requires Consistent(s)
    ensures Consistent(PassAll(s, cs, e, cb))
  {
    if cs != [] {
      PassAllKeepsConsistent(s, cs[..|cs| - 1], e, cb);
      PassKeepsConsistent(PassAll(s, cs[..|cs| - 1], e, cb), cs[|cs| - 1], e, cb);
    }
  }

  /**
   * The stream over a snapshot collects exactly the satisfied entries, in order, and runs
   * exactly their actions, once each, in order.
   */
  lemma {:induction false} AttemptAllRunsSatisfied(s: State, ws: seq<Waiting>, e: Event, cb: Callbacks)
    ensures AttemptAll(s, ws, e, cb).matched == Satisfied(ws, e, cb)
    ensures AttemptAll(s, ws, e, cb).state.log == s.log + RanAll(Satisfied(ws, e, cb), e)
  {
    if ws != [] {
      var init, w := ws[..|ws| - 1], ws[|ws| - 1];
      AttemptAllRunsSatisfied(s, init, e, cb);
      var m := Satisfied(init, e, cb);
      if cb.test(w.condition, e) {
        assert Satisfied(ws, e, cb) == m + [w];
        assert RanAll(m + [w], e) == RanAll(m, e) + [Ran(w.action, e)] by {
          assert (m + [w])[..|m + [w]| - 1] == m;
        }
      }
    }
  }

  /** Only entries of the snapshot can be satisfied ones, and each one is. */
  lemma {:induction false} SatisfiedMembers(ws: seq<Waiting>, e: Event, cb: Callbacks)
    ensures forall w :: w in Satisfied(ws, e, cb) <==> w in ws && cb.test(w.condition, e)
  {
    if ws != [] {
      SatisfiedMembers(ws[..|ws| - 1], e, cb);
      assert ws == ws[..|ws| - 1] + [ws[|ws| - 1]];
    }
  }

  /** Removing a set that agrees with the conditions on `ws` leaves the unsatisfied entries. */
  lemma {:induction false} RemoveAllLeavesUnsatisfied(ws: seq<Waiting>, m: seq<Waiting>, e: Event, cb: Callbacks)
    requires forall w :: w in ws ==> (w in m <==> cb.test(w.condition, e))
    ensures RemoveAll(ws, m) == Unsatisfied(ws, e, cb)
  {
    if ws != [] {
      RemoveAllLeavesUnsatisfied(ws[..|ws| - 1], m, e, cb);
    }
  }

  lemma {:induction false} RemoveAllAppend(a: seq<Waiting>, b: seq<Waiting>, m: seq<Waiting>)
    ensures RemoveAll(a + b, m) == RemoveAll(a, m) + RemoveAll(b, m)
  {
    if b == [] {
      assert a + b == a;
    } else {
      assert (a + b)[..|a + b| - 1] == a + b[..|b| - 1];
      assert (a + b)[|a + b| - 1] == b[|b| - 1];
      RemoveAllAppend(a, b[..|b| - 1], m);
    }
  }

  lemma {:induction false} RemoveAllNone(b: seq<Waiting>, m: seq<Waiting>)
    requires forall w :: w in b ==> w !in m
    ensures RemoveAll(b, m) == b
  {
    if b != [] {
      RemoveAllNone(b[..|b| - 1], m);
      assert b == b[..|b| - 1] + [b[|b| - 1]];
    }
  }

  /**
   * What handle does to one bucket. The bucket afterwards holds the snapshot's
   * unsatisfied entries in their order, followed by every entry the actions registered on
   * it during the pass, in order: those are newer than every entry pending before the
   * pass, and were neither attempted nor removed. The log gains one run per satisfied
   * snapshot entry, in order.
   */
  lemma PassBucket(s: State, c: ClassName, e: Event, cb: Callbacks)
    requires Consistent(s) && c in s.buckets
    ensures var t := Pass(s, c, e, cb); var u := Unsatisfied(s.buckets[c], e, cb);
            var during := AttemptAll(s, s.buckets[c], e, cb).state.buckets[c];
      && c in t.buckets
      && s.buckets[c] <= during
      && t.buckets[c] == u + during[|s.buckets[c]|..]
      && IdsAtLeast(t.buckets[c][|u|..], s.nextId)
      && t.log == s.log + RanAll(Satisfied(s.buckets[c], e, cb), e)
  {
    var snap := s.buckets[c];
    var a := AttemptAll(s, snap, e, cb);
    AttemptAllExtends(s, snap, e, cb);
    AttemptAllRunsSatisfied(s, snap, e, cb);
    SatisfiedMembers(snap, e, cb);
    var after := a.state.buckets[c];
    assert Bucket(s, c) == snap;
    var late := after[|snap|..];
    assert after == snap + late;
    NewerNotMatched(snap, late, a.matched, s.nextId);
    RemoveAllAppend(snap, late, a.matched);
    RemoveAllLeavesUnsatisfied(snap, a.matched, e, cb);
    RemoveAllNone(late, a.matched);
    var u := Unsatisfied(snap, e, cb);
    assert RemoveAll(after, a.matched) == u + late;
    assert (u + late)[|u|..] == late;
  }

  lemma NewerNotMatched(snap: seq<Waiting>, late: seq<Waiting>, m: seq<Waiting>, n: nat)
    requires IdsBelow(snap, n) && IdsAtLeast(late, n)
    requires forall w :: w in m ==> w in snap
    ensures forall w :: w in late ==> w !in m
  {
    forall w | w in late ensures w !in m {
      var i :| 0 <= i < |late| && late[i] == w;
      assert n <= w.id;
    }
  }

  /** Classes handle does not visit lose no pending entry. */
  lemma {:induction false} PassAllSpares(s: State, cs: seq<ClassName>, c: ClassName, e: Event, cb: Callbacks)
    requires Consistent(s) && c !in cs
    ensures Bucket(s, c) <= Bucket(PassAll(s, cs, e, cb), c)
  {
    if cs != [] {
      var init, d := cs[..|cs| - 1], cs[|cs| - 1];
      var u := PassAll(s, init, e, cb);
      PassAllSpares(s, init, c, e, cb);
      PassAllKeepsConsistent(s, init, e, cb);
      if d in u.buckets {
        var a := AttemptAll(u, u.buckets[d], e, cb);
        AttemptAllExtends(u, u.buckets[d], e, cb);
        assert c in u.buckets ==> Bucket(u, c) <= Bucket(a.state, c);
      }
    }
  }

  /**
   * handle never checks the root class of the chain: nothing pending on it is consumed
   * (Java class chains do not repeat a class, hence the requirement).
   */
  lemma DispatchSparesRoot(s: State, e: Event, cb: Callbacks)
    requires Consistent(s) && |e.classes| > 0
    requires e.classes[|e.classes| - 1] !in e.classes[..|e.classes| - 1]
    ensures var root := e.classes[|e.classes| - 1];
      Bucket(s, root) <= Bucket(Dispatch(s, e, cb), root)
  {
    PassAllSpares(s, Checked(e.classes), e.classes[|e.classes| - 1], e, cb);
  }

  /**
   * Expiry: if the entry is pending, it is removed (the rest keeps its order) and the
   * timeout task runs if there is one; otherwise nothing changes.
   */
  lemma ExpiredEffect(s: State, t: Timer)
    requires Consistent(s)
    ensures var r := Expired(s, t);
      && (Pending(s, t) ==>
            && t.entry !in r.buckets[t.classType]
            && (forall w :: w in r.buckets[t.classType] <==> w in s.buckets[t.classType] && w != t.entry)
            && r.log == s.log + (if t.timeoutAction.Some? then [TimedOut(t.timeoutAction.value)] else [])
            && (forall c :: c in s.buckets && c != t.classType ==> r.buckets[c] == s.buckets[c]))
      && (!Pending(s, t) ==> r == s)
  {
    if Pending(s, t) {
      RemoveFirstMembers(s.buckets[t.classType], t.entry);
    }
  }

  /** In a bucket without repeated entries, list.remove(w) removes w and only w. */
  lemma RemoveFirstMembers(ws: seq<Waiting>, x: Waiting)
    requires DistinctIds(ws) && x in ws
    ensures forall w :: w in RemoveFirst(ws, x) <==> w in ws && w != x
  {
    var i := FirstIndex(ws, x);
    var r := RemoveFirst(ws, x);
    forall w ensures w in r <==> w in ws && w != x {
      if w in ws && w != x {
        var k :| 0 <= k < |ws| && ws[k] == w;
        assert w == r[if k < i then k else k - 1];
      }
      if w in r {
        var k :| 0 <= k < |r| && r[k] == w;
        var k' := if k < i then k else k + 1;
        assert r[k] == ws[k'];
      }
    }
  }

  /** An entry consumed by expiry (or by anything else) cannot expire a second time. */
  lemma ExpireTwiceIsNoOp(s: State, t: Timer)
    requires Consistent(s)
    ensures Expired(Expired(s, t), t) == Expired(s, t)
  {
    ExpiredEffect(s, t);
  }

  // ---------------------------------------------------------------- the object

  /** The EventWaiter object: the HashMap of ArrayLists and what has run so far. */
  class EventWaiter {
    var buckets: map<ClassName, seq<Waiting>>
    var timers: seq<Timer>
    var log: seq<Fired>
    var nextId: nat

    function Snapshot(): State
      reads this
    {
      State(buckets, timers, log, nextId)
    }

    predicate Valid()
      reads this
    {
      Consistent(Snapshot())
    }

    /** An empty waiter (listener registration with the client is left to the host). */
    constructor ()
      ensures Valid() && Snapshot() == Empty
    {
      buckets, timers, log, nextId := map[], [], [], 0;
    }

    /** waitForEvent(classType, condition, action): no timeout is ever armed. */
    method WaitForEvent(classType: ClassName, condition: ConditionId, action: ActionId)
      requires Valid()
      modifies this
      ensures Valid()
      ensures Snapshot() == Register(old(Snapshot()), Untimed(classType, condition, action))
      ensures timers == old(timers)
    {
      WaitForEventTimed(classType, condition, action, -1, None, None);
    }

    /** waitForEvent(classType, condition, action, timeout, unit, timeoutAction). */
    method WaitForEventTimed(classType: ClassName, condition: ConditionId, action: ActionId,
                             timeout: int, unit: Option<TimeUnit>, timeoutAction: Option<TaskId>)
      requires Valid()
      modifies this
      ensures Valid()
      ensures Snapshot() == Register(old(Snapshot()), Request(classType, condition, action, timeout, unit, timeoutAction))
    {
      ghost var s := Snapshot();
      ghost var t := Register(s, Request(classType, condition, action, timeout, unit, timeoutAction));
      RegisterKeepsConsistent(s, Request(classType, condition, action, timeout, unit, timeoutAction));
      var list: seq<Waiting>;
      if classType in buckets {
        list := buckets[classType];
      } else {
        list := [];
      }
      assert list == Bucket(s, classType);
      var we := Waiting(nextId, condition, action);
      buckets := buckets[classType := list + [we]];
      nextId := nextId + 1;
      if timeout > 0 && unit.Some? {
        timers := timers + [Timer(classType, we, timeoutAction)];
      }
      assert buckets == t.buckets && timers == t.timers && log == t.log && nextId == t.nextId;
    }

    /** handle(event): walk the class chain up to, but not including, the root class. */
    method Handle(e: Event, cb: Callbacks)
      requires Valid()
      modifies this
      ensures Valid()
      ensures Snapshot() == Dispatch(old(Snapshot()), e, cb)
    {
      ghost var s0 := Snapshot();
      var cs := e.classes;
      var i := 0;
      while i + 1 < |cs|
        invariant 0 <= i && (i == 0 || i < |cs|)
        invariant Valid()
        invariant Snapshot() == PassAll(s0, cs[..i], e, cb)
      {
        var c := cs[i];
        assert cs[..i + 1][..i] == cs[..i] && cs[..i + 1][i] == c;
        if c in buckets {
          HandleBucket(c, e, cb);
        }
        i := i + 1;
      }
      assert cs[..i] == Checked(cs);
    }

    /** One iteration of handle's loop, for a class that has a bucket. */
    method HandleBucket(c: ClassName, e: Event, cb: Callbacks)
      requires Valid() && c in buckets
      modifies this
      ensures Valid()
      ensures Snapshot() == Pass(old(Snapshot()), c, e, cb)
    {
      ghost var s0 := Snapshot();
      var list := buckets[c];
      var matched: seq<Waiting> := [];
      var j := 0;
      while j < |list|
        invariant 0 <= j <= |list|
        invariant Valid()
        invariant Attempted(Snapshot(), matched) == AttemptAll(s0, list[..j], e, cb)
      {
        var w := list[j];
        ghost var before := Snapshot();
        ghost var step := Attempt(before, w, e, cb);
        assert list[..j + 1][..j] == list[..j] && list[..j + 1][j] == w;
        if cb.test(w.condition, e) {
          log := log + [Ran(w.action, e)];
          assert Snapshot() == before.(log := before.log + [Ran(w.action, e)]);
          RunAction(w.action, e, cb);
          assert Snapshot() == step.0;
          matched := matched + [w];
        }
        j := j + 1;
      }
      assert list[..j] == list;
      ghost var u := Snapshot();
      RemoveMatchedKeepsConsistent(u, c, matched);
      buckets := buckets[c := RemoveAll(buckets[c], matched)];
      assert Snapshot() == RemoveMatched(u, c, matched);
    }

    /** An action running: the waitForEvent calls it makes, in order. */
    method RunAction(a: ActionId, e: Event, cb: Callbacks)
      requires Valid()
      modifies this
      ensures Valid()
      ensures Snapshot() == RegisterAll(old(Snapshot()), cb.react(a, e))
    {
      ghost var s0 := Snapshot();
      var rs := cb.react(a, e);
      var k := 0;
      while k < |rs|
        invariant 0 <= k <= |rs|
        invariant Valid()
        invariant Snapshot() == RegisterAll(s0, rs[..k])
      {
        assert rs[..k + 1][..k] == rs[..k] && rs[..k + 1][k] == rs[k];
        var r := rs[k];
        WaitForEventTimed(r.classType, r.condition, r.action, r.timeout, r.unit, r.timeoutAction);
        k := k + 1;
      }
      assert rs[..k] == rs;
    }

    /** A scheduled timer going off. */
    method Expire(t: Timer)
      requires Valid() && t in timers
      modifies this
      ensures Valid()
      ensures Snapshot() == Expired(old(Snapshot()), t)
    {
      ExpiredKeepsConsistent(Snapshot(), t);
      if t.classType in buckets && t.entry in buckets[t.classType] {
        buckets := buckets[t.classType := RemoveFirst(buckets[t.classType], t.entry)];
        if t.timeoutAction.Some? {
          log := log + [TimedOut(t.timeoutAction.value)];
        }
      }
    }
  }
}
