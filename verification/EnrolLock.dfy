/** The per-key enrolment lock: a chain of promises that the module copies of one process queue on, so that
    a single-use enrolment token is spent once and later copies load what the first one saved. */
module EnrolLock {
  import opened OrderedMaps

  datatype Progress = Waiting | Running(foundSaved: bool) | Done

  /** One call: `prev` is the call whose tail promise it found under the key, if any. */
  datatype Call = Call(prev: Option<nat>, progress: Progress)

  /** The key's calls in arrival order, the call whose tail the key maps to, whether credentials are saved,
      and how often the relay accepted an enrolment. */
  datatype Lock = Lock(calls: seq<Call>, tail: Option<nat>, saved: bool, enrolled: nat)

  const UNUSED := Lock([], None, false, 0)

  /** A call's tail settles once its predecessor's has and it has released its own promise. */
  predicate Settled(cs: seq<Call>, i: nat)
    decreases i
  {
    i < |cs| && cs[i].progress.Done? && (cs[i].prev.None? || (cs[i].prev.value < i && Settled(cs, cs[i].prev.value)))
  }

  /** What the enrolment inside the lock came to: it loaded saved credentials, was accepted, or failed. */
  datatype Outcome = Loaded | Accepted | Failed

  datatype Action = Arrive | Start(call: nat) | Finish(call: nat, outcome: Outcome)

  ghost predicate Enabled(l: Lock, a: Action) {
    match a
    case Arrive => true
    case Start(i) => i < |l.calls| && l.calls[i].progress.Waiting? && (l.calls[i].prev.None? || Settled(l.calls, l.calls[i].prev.value))
    case Finish(i, outcome) =>
      && i < |l.calls| && l.calls[i].progress.Running?
      && (outcome.Loaded? ==> l.calls[i].progress.foundSaved)
      && (outcome.Accepted? ==> !l.calls[i].progress.foundSaved)
  }

  function Next(l: Lock, a: Action): Lock
    requires Enabled(l, a)
  {
    match a
    case Arrive => l.(calls := l.calls + [Call(l.tail, Waiting)], tail := Some(|l.calls|))
    case Start(i) => l.(calls := l.calls[i := l.calls[i].(progress := Running(l.saved))])
    case Finish(i, outcome) =>
      Lock(l.calls[i := l.calls[i].(progress := Done)], if l.tail == Some(i) then None else l.tail,
           l.saved || outcome.Accepted?, if outcome.Accepted? then l.enrolled + 1 else l.enrolled)
  }

  ghost predicate IsRun(ls: seq<Lock>, acts: seq<Action>) {
    && |ls| == |acts| + 1 && ls[0] == UNUSED
    && forall i :: 0 <= i < |acts| ==> Enabled(ls[i], acts[i]) && ls[i + 1] == Next(ls[i], acts[i])
  }

  // ---------------------------------------------------------------------
  // The queue it implements
  // ---------------------------------------------------------------------

  /** Served strictly in arrival order: a call that has started has everyone before it done. */
  ghost predicate InOrder(cs: seq<Call>) {
    forall i, j :: 0 <= i < j < |cs| && !cs[j].progress.Waiting? ==> cs[i].progress.Done?
  }

  ghost predicate Linked(l: Lock) {
    && (forall i :: 0 <= i < |l.calls| ==>
          if l.calls[i].prev.Some? then l.calls[i].prev.value == i - 1 else forall j :: 0 <= j < i ==> l.calls[j].progress.Done?)
    && (if l.tail.Some? then |l.calls| > 0 && l.tail.value == |l.calls| - 1
        else forall i :: 0 <= i < |l.calls| ==> l.calls[i].progress.Done?)
  }

  ghost predicate Accounted(l: Lock) {
    && l.enrolled == (if l.saved then 1 else 0)
    && forall i :: 0 <= i < |l.calls| && l.calls[i].progress.Running? ==> l.calls[i].progress.foundSaved == l.saved
  }

  ghost predicate Inv(l: Lock) {
    InOrder(l.calls) && Linked(l) && Accounted(l)
  }

  lemma {:induction false} SettledMeansDone(l: Lock, i: nat)
    requires Linked(l) && Settled(l.calls, i)
    ensures forall j :: 0 <= j <= i ==> l.calls[j].progress.Done?
    decreases i
  {
    if l.calls[i].prev.Some? { SettledMeansDone(l, i - 1); }
  }

  lemma NextInv(l: Lock, a: Action)
    requires Inv(l) && Enabled(l, a)
    ensures Inv(Next(l, a))
  {
    match a
    case Arrive =>
    case Start(i) => if l.calls[i].prev.Some? { SettledMeansDone(l, l.calls[i].prev.value); }
    case Finish(i, outcome) =>
  }

  lemma {:induction false} RunInv(ls: seq<Lock>, acts: seq<Action>, n: nat)
    requires IsRun(ls, acts) && n <= |acts|
    ensures Inv(ls[n])
  {
    if n > 0 {
      RunInv(ls, acts, n - 1);
      NextInv(ls[n - 1], acts[n - 1]);
      assert ls[n - 1 + 1] == Next(ls[n - 1], acts[n - 1]);
    }
  }

  /** Same-key enrolments run one at a time and in arrival order. */
  lemma OneAtATimeInOrder(ls: seq<Lock>, acts: seq<Action>, n: nat, i: nat, j: nat)
    requires IsRun(ls, acts) && n <= |acts| && i < j < |ls[n].calls| && !ls[n].calls[j].progress.Waiting?
    ensures ls[n].calls[i].progress.Done?
  {
    RunInv(ls, acts, n);
  }

  /** However many copies queue, the relay accepts at most one enrolment, and once it has, every later call
      finds the saved credentials instead of spending the token again. */
  lemma EnrolsAtMostOnce(ls: seq<Lock>, acts: seq<Action>, n: nat)
    requires IsRun(ls, acts) && n <= |acts|
    ensures ls[n].enrolled <= 1
    ensures ls[n].enrolled == 1 ==> forall i :: 0 <= i < |ls[n].calls| && ls[n].calls[i].progress.Running? ==> ls[n].calls[i].progress.foundSaved
  {
    RunInv(ls, acts, n);
  }

  /** The chain never stalls: if any call is still waiting and none is running, the first of them may start. */
  lemma SomeoneMayStart(l: Lock, i: nat)
    requires Inv(l) && i < |l.calls| && l.calls[i].progress.Waiting?
    requires forall j :: 0 <= j < i ==> l.calls[j].progress.Done?
    ensures Enabled(l, Start(i))
  {
    if l.calls[i].prev.Some? { DoneMeansSettled(l, i - 1); }
  }

  lemma {:induction false} DoneMeansSettled(l: Lock, i: nat)
    requires Linked(l) && i < |l.calls| && forall j :: 0 <= j <= i ==> l.calls[j].progress.Done?
    ensures Settled(l.calls, i)
    decreases i
  {
    if l.calls[i].prev.Some? { DoneMeansSettled(l, i - 1); }
  }

  ghost predicate TailOpen(l: Lock) {
    l.tail.Some? ==> l.tail.value < |l.calls| && !l.calls[l.tail.value].progress.Done?
  }

  lemma {:induction false} RunTailOpen(ls: seq<Lock>, acts: seq<Action>, n: nat)
    requires IsRun(ls, acts) && n <= |acts|
    ensures TailOpen(ls[n])
  {
    if n > 0 {
      RunTailOpen(ls, acts, n - 1);
      RunInv(ls, acts, n - 1);
      assert ls[n - 1 + 1] == Next(ls[n - 1], acts[n - 1]);
    }
  }

  /** The key maps to a tail exactly while some call under it is unfinished: nothing is left behind, and a call that arrives
      meanwhile always finds one to wait for. */
  lemma KeyIsForgottenIff(ls: seq<Lock>, acts: seq<Action>, n: nat)
    requires IsRun(ls, acts) && n <= |acts|
    ensures ls[n].tail == None <==> forall i :: 0 <= i < |ls[n].calls| ==> ls[n].calls[i].progress.Done?
  {
    RunInv(ls, acts, n);
    RunTailOpen(ls, acts, n);
  }
}
