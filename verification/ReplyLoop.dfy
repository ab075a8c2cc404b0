/** The auto-reply loop as a step machine: one step per await-free region of the tick, and
    `stop()` as a step of its own that may come between any two of them.

    What the relay, the floor and the spawned process answer, and which messages of a batch
    the gates let through, are inputs of the steps. The `ledger`, `effects` and `turns` fields
    record history; no step reads them. */
module ReplyLoop {
  import opened OrderedMaps
  import opened Messages
  import opened Stashing
  import opened Covering

  // ---------------------------------------------------------------------
  // Floor planning
  // ---------------------------------------------------------------------

  datatype Group = Group(conversation: string, messages: seq<Message>)

  predicate HasGroup(gs: seq<Group>, c: string) {
    exists g :: g in gs && g.conversation == c
  }

  function AddToGroup(gs: seq<Group>, m: Message): seq<Group>
    requires HasGroup(gs, m.conversation)
  {
    var n := |gs| - 1;
    assert gs == gs[..n] + [gs[n]];
    if gs[n].conversation == m.conversation then gs[..n] + [Group(m.conversation, gs[n].messages + [m])]
    else AddToGroup(gs[..n], m) + [gs[n]]
  }

  /** The kept messages by conversation, conversations in order of first appearance. */
  function GroupsOf(kept: seq<Message>): seq<Group> {
    if kept == [] then []
    else
      var n := |kept| - 1;
      var rest := GroupsOf(kept[..n]);
      if HasGroup(rest, kept[n].conversation) then AddToGroup(rest, kept[n])
      else rest + [Group(kept[n].conversation, [kept[n]])]
  }

  predicate HasPeer(g: Group) {
    exists m :: m in g.messages && m.kind == Peer
  }

  /** Floor planning in progress; `waiting[0]` is the conversation whose floor is being asked for. */
  datatype Plan = Plan(waiting: seq<Group>, floored: seq<Message>, toRelease: seq<string>, deferred: seq<Group>)

  /** Conversations only the operator triggered respond without asking for the floor. */
  function SkipOperatorOnly(p: Plan): (r: Plan)
    ensures r.waiting == [] || HasPeer(r.waiting[0])
    ensures r.toRelease == p.toRelease && r.deferred == p.deferred
    decreases |p.waiting|
  {
    if p.waiting == [] || HasPeer(p.waiting[0]) then p
    else SkipOperatorOnly(p.(waiting := p.waiting[1..], floored := p.floored + p.waiting[0].messages))
  }

  datatype FloorAnswer = Granted | Denied | Failed

  function Answered(p: Plan, answer: FloorAnswer): Plan
    requires p.waiting != []
  {
    var g, rest := p.waiting[0], p.waiting[1..];
    match answer
    case Granted => Plan(rest, p.floored + g.messages, p.toRelease + [g.conversation], p.deferred)
    case Denied => Plan(rest, p.floored, p.toRelease, p.deferred + [g])
    case Failed => Plan(rest, p.floored + g.messages, p.toRelease, p.deferred)
  }

  // ---------------------------------------------------------------------
  // The state
  // ---------------------------------------------------------------------

  /** What a tick carries across its awaits: the messages its gates kept and the batch's verdicts. */
  datatype Tick = Tick(kept: seq<Message>, verdicts: Verdicts)

  /** Where the loop is waiting. */
  datatype Phase =
    | Idle
    | Polling
    | QuietAck
    | Noticing(tick: Tick, left: nat)
    | Acking(tick: Tick)
    | Planning(tick: Tick, plan: Plan)
    | HandingBack(floor: string, others: seq<string>)
    | CoverTurn(floors: seq<string>, floored: seq<Message>, cargo: Cargo, covered: seq<string>)
    | Releasing(floor: string, others: seq<string>)
    | OverrunTurn(late: Stash, at: int)
    | RetryAsk(conversation: string, rest: seq<string>, at: int)
    | RetryTurn(conversation: string, late: Stash)
    | RetryRelease(floor: string, rest: seq<string>, more: bool, at: int)

  datatype Effect = AckStarted | Stashed | TurnStarted | TurnEnded | FloorAsked

  type Keys = multiset<HeldKey>

  /** Where every admitted message key has gone. `merged` counts copies folded into an identical one; `lost` those
      a throwing logger made the loop forget. */
  datatype Ledger = Ledger(admitted: Keys, started: Keys, dead: Keys, failed: Keys, merged: Keys, lost: Keys)

  /** A turn as it was rendered: a label per message identity, and the generation current then. */
  datatype Turn = Turn(labels: Verdicts, generation: Generation)

  datatype Loop = Loop(
    phase: Phase, stopped: bool, inFlight: bool,
    unhanded: seq<Message>, stash: Stashes, covering: seq<string>,
    generation: Generation, deferredStarts: nat,
    ledger: Ledger, effects: seq<Effect>, turns: seq<Turn>)

  const EMPTY_LEDGER := Ledger(multiset{}, multiset{}, multiset{}, multiset{}, multiset{}, multiset{})

  function Start(generation: Generation): Loop {
    Loop(Idle, false, false, [], EmptyMap(), [], generation, 0, EMPTY_LEDGER, [], [])
  }

  // ---------------------------------------------------------------------
  // Await-free pieces
  // ---------------------------------------------------------------------

  /** The stashed conversations a covering turn does not own. */
  function Uncovered(cs: seq<string>, covering: seq<string>): (r: seq<string>)
    ensures forall c :: c in r <==> c in cs && c !in covering
    ensures NoDup(cs) ==> NoDup(r)
  {
    if cs == [] then []
    else
      var n := |cs| - 1;
      assert cs == cs[..n] + [cs[n]];
      var rest := Uncovered(cs[..n], covering);
      assert (rest + [cs[n]])[..|rest|] == rest;
      if cs[n] in covering then rest else rest + [cs[n]]
  }

  function DeadLetter(l: Ledger, ks: multiset<HeldKey>): Ledger {
    l.(dead := l.dead + ks)
  }

  /** Everything the loop still holds, except what a covering turn may be delivering, goes on record. */
  function FlushOnStop(s: Loop): Loop
    requires s.stash.Valid()
  {
    var flushed := Uncovered(s.stash.keys, s.covering);
    s.(unhanded := [],
       stash := ClearAll(s.stash, flushed),
       ledger := DeadLetter(s.ledger, multiset(KeysOf(s.unhanded)) + multiset(EntryKeys(HeldEntries(s.stash.at, flushed)))))
  }

  function EndTick(s: Loop): Loop
    requires s.stash.Valid()
  {
    var t := s.(phase := Idle, unhanded := [], covering := []);
    if s.stopped then FlushOnStop(t) else t
  }

  /** A held-back turn's labels: each stored verdict as the current generation allows it. */
  function StashLabels(es: seq<StashEntry>, gen: Generation): Verdicts {
    if es == [] then map[]
    else StashLabels(es[..|es| - 1], gen)[KeyOf(es[|es| - 1].message) := EntryVerdict(es[|es| - 1], gen)]
  }

  /** Take `c`'s stash out of the map and spawn its turn. */
  function SpawnHeldBack(s: Loop, c: string, next: Stash -> Phase): Loop
    requires c in s.stash.at
  {
    var late := s.stash.at[c];
    s.(stash := s.stash.Remove(c), inFlight := true, phase := next(late),
       effects := s.effects + [TurnStarted],
       turns := s.turns + [Turn(StashLabels(late.entries, s.generation), s.generation)])
  }

  function WalkRetries(s: Loop, cs: seq<string>, now: int): Loop
    requires s.stash.Valid()
  {
    if cs == [] then EndTick(s)
    else s.(phase := RetryAsk(cs[0], cs[1..], now), effects := s.effects + [FloorAsked])
  }

  /** At most one deferred turn: an expired stash first, else the floor retries. */
  function ServiceDeferred(s: Loop, now: int): Loop
    requires s.stash.Valid()
  {
    if s.inFlight then EndTick(s)
    else if ExpiredOrder(s.stash, now) != [] then
      SpawnHeldBack(s, ExpiredOrder(s.stash, now)[0], late => OverrunTurn(late, now))
    else WalkRetries(s, RetryOrder(s.stash, now), now)
  }

  function BeginAck(s: Loop, t: Tick): Loop {
    s.(unhanded := t.kept, phase := Acking(t), effects := s.effects + [AckStarted],
       ledger := s.ledger.(admitted := s.ledger.admitted + multiset(KeysOf(t.kept))))
  }

  ghost function MergedAway(d: Stashes, c: string, msgs: seq<Message>): multiset<HeldKey> {
    multiset(EntryKeys(EntriesOf(d, c))) + multiset(KeysOf(msgs)) - multiset(Merged(d, c, msgs))
  }

  function Put(s: Loop, d: Stashes, dropped: multiset<HeldKey>, folded: multiset<HeldKey>): Loop {
    s.(stash := d, effects := s.effects + [Stashed],
       ledger := s.ledger.(dead := s.ledger.dead + dropped, merged := s.ledger.merged + folded))
  }

  /** Stash one deferred conversation; what could not be kept is dead-lettered. */
  ghost function StashGroup(s: Loop, g: Group, t: Tick, now: int): (r: Loop)
    requires s.stash.Valid()
    ensures r.stash.Valid()
  {
    var gen := Some(s.generation);
    Put(s, StashAfter(s.stash, g.conversation, g.messages, t.verdicts, now, gen),
        DroppedKeys(StashDrops(s.stash, g.conversation, g.messages, t.verdicts, now, gen)),
        MergedAway(s.stash, g.conversation, g.messages))
  }

  ghost function StashGroups(s: Loop, gs: seq<Group>, t: Tick, now: int): (r: Loop)
    requires s.stash.Valid()
    ensures r.stash.Valid()
  {
    if gs == [] then s else StashGroup(StashGroups(s, gs[..|gs| - 1], t, now), gs[|gs| - 1], t, now)
  }

  function Board(s: Loop, floors: seq<string>, floored: seq<Message>, cargo: Cargo, covered: seq<string>): Loop {
    s.(inFlight := true, covering := covered, phase := CoverTurn(floors, floored, cargo, covered),
       effects := s.effects + [TurnStarted],
       turns := s.turns + [Turn(cargo.labels, s.generation)])
  }

  function SpawnCovering(s: Loop, p: Plan, t: Tick): Loop {
    Board(s, p.toRelease, p.floored, Cover(s.stash, p.floored, t.verdicts, s.generation), CoveredBy(s.stash, p.floored))
  }

  function ReleaseThenEnd(s: Loop, floors: seq<string>): Loop
    requires s.stash.Valid()
  {
    if floors == [] then EndTick(s) else s.(phase := HandingBack(floors[0], floors[1..]))
  }

  /** Every floor has answered: stash what was deferred, then spawn the turn over the rest. */
  ghost function FinishPlan(s: Loop, t: Tick, p: Plan, now: int): Loop
    requires s.stash.Valid()
  {
    if s.stopped then ReleaseThenEnd(s, p.toRelease)
    else
      var stashed := StashGroups(s, p.deferred, t, now).(unhanded := []);
      if p.floored == [] then ServiceDeferred(stashed, now) else SpawnCovering(stashed, p, t)
  }

  ghost function ContinuePlan(s: Loop, t: Tick, p: Plan, now: int): Loop
    requires s.stash.Valid()
  {
    var q := SkipOperatorOnly(p);
    if q.waiting == [] then FinishPlan(s, t, q, now)
    else s.(phase := Planning(t, q), effects := s.effects + [FloorAsked])
  }

  function ServiceOrEnd(s: Loop, now: int): Loop
    requires s.stash.Valid()
  {
    if s.stopped then EndTick(s) else ServiceDeferred(s, now)
  }

  function AfterCoverTurn(s: Loop, floors: seq<string>, now: int): Loop
    requires s.stash.Valid()
  {
    if floors == [] then ServiceOrEnd(s, now) else s.(phase := Releasing(floors[0], floors[1..]))
  }

  /** The covering turn started: it delivered the covered stashes and the fresh messages. */
  function CoverStarted(s: Loop): Loop
    requires s.phase.CoverTurn? && s.stash.Valid()
  {
    var carried := multiset(KeysOf(s.phase.cargo.messages));
    var all := multiset(KeysOf(s.phase.floored)) + multiset(EntryKeys(HeldEntries(s.stash.at, Present(s.stash, s.phase.covered))));
    s.(inFlight := false, covering := [], effects := s.effects + [TurnEnded],
       stash := ClearAll(s.stash, s.phase.covered),
       ledger := s.ledger.(started := s.ledger.started + carried, merged := s.ledger.merged + (all - carried)))
  }

  function Present(d: Stashes, cs: seq<string>): (r: seq<string>)
    ensures forall c :: c in r ==> c in d.at
    ensures (forall c :: c in cs ==> c in d.at) ==> r == cs
  {
    if cs == [] then []
    else
      var n := |cs| - 1;
      assert cs == cs[..n] + [cs[n]];
      if cs[n] in d.at then Present(d, cs[..n]) + [cs[n]] else Present(d, cs[..n])
  }

  /** The covering turn did not start: its fresh messages have nothing to fall back on. */
  function CoverLost(s: Loop): Loop
    requires s.phase.CoverTurn?
  {
    var lost := multiset(KeysOf(s.phase.cargo.messages)) - multiset(s.phase.cargo.late);
    s.(inFlight := false, covering := [], effects := s.effects + [TurnEnded],
       ledger := s.ledger.(failed := s.ledger.failed + lost,
                           merged := s.ledger.merged + (multiset(KeysOf(s.phase.floored)) - lost)))
  }

  /** The stashes it covered stay, or go on record if the loop was stopped meanwhile. */
  function CoverFailed(s: Loop): Loop
    requires s.phase.CoverTurn? && s.stash.Valid()
  {
    if s.phase.covered != [] && s.stopped then FlushOnStop(CoverLost(s)) else CoverLost(s)
  }

  /** A held-back turn was decided. */
  function HeldBackEnded(s: Loop, late: Stash, started: bool): Loop {
    var ks := multiset(EntryKeys(late.entries));
    s.(inFlight := false, effects := s.effects + [TurnEnded],
       deferredStarts := if started then s.deferredStarts + 1 else s.deferredStarts,
       ledger := if started then s.ledger.(started := s.ledger.started + ks) else DeadLetter(s.ledger, ks))
  }

  // ---------------------------------------------------------------------
  // Steps
  // ---------------------------------------------------------------------

  /** A poll's answer: the batch, the verdict computed for each message under the generation after the
      pin sync, durable rejections by id, whether any message is real, which the gates keep, and how
      many stall notices they raise. */
  datatype Batch = Batch(
    messages: seq<Message>, results: seq<Option<Verdict>>, generation: Generation,
    rejected: map<string, Verdict>, anyReal: bool, kept: seq<Message>, notices: nat)

  ghost predicate ValidBatch(b: Batch) {
    && |b.results| == |b.messages|
    && (forall id :: id in b.rejected ==> !b.rejected[id].verified)
    && (forall m :: m in b.kept ==> m in b.messages)
    && (!b.anyReal ==> b.kept == [] && b.notices == 0)
    && (b.anyReal ==> b.messages != [])
  }

  datatype Action =
    | TickFires
    | PollFails
    | PollReturns(batch: Batch, now: int)
    | AckReturns(now: int)
    | NoticeReturns
    | FloorAnswers(answer: FloorAnswer, now: int)
    | SpawnDecided(started: bool, now: int)
    | ReleaseReturns(now: int)
    | Stop
    | TickThrows(during: Action, site: Site)

  /** The log lines at which a host's throwing logger ends the tick. `Reporting` logs the failure that `during`
      brings, a floor denied to a plan, or anything a poll logs before its ack; `Recorded` logs a failed retry after its
      record is made; `Announcing` comes just before a turn is spawned, and `Dropping` just before the record of one
      stash drop. */
  datatype Site = Reporting | Recorded | Announcing | Dropping(group: nat, drop: nat)

  /** `a` is what the loop is waiting for, or a stop. */
  ghost predicate Ready(s: Loop, a: Action) {
    && s.stash.Valid()
    && match a
       case TickFires => s.phase.Idle? && !s.stopped
       case PollFails => s.phase.Polling?
       case PollReturns(b, _) => s.phase.Polling? && ValidBatch(b)
       case AckReturns(_) => s.phase.QuietAck? || s.phase.Acking?
       case NoticeReturns => s.phase.Noticing?
       case FloorAnswers(_, _) => (s.phase.Planning? && s.phase.plan.waiting != []) || s.phase.RetryAsk?
       case SpawnDecided(_, _) => s.phase.CoverTurn? || s.phase.OverrunTurn? || s.phase.RetryTurn?
       case ReleaseReturns(_) => s.phase.HandingBack? || s.phase.Releasing? || s.phase.RetryRelease?
       case Stop => !s.stopped
       case TickThrows(_, _) => false
  }

  function AfterPoll(s: Loop, b: Batch, t: Tick, now: int): Loop
    requires s.stash.Valid()
  {
    if !b.anyReal then
      if b.messages == [] then ServiceDeferred(s, now)
      else s.(phase := QuietAck, effects := s.effects + [AckStarted])
    else if b.notices > 0 then s.(phase := Noticing(t, b.notices - 1))
    else BeginAck(s, t)
  }

  function TickOf(b: Batch): Tick
    requires |b.results| == |b.messages|
  {
    Tick(b.kept, BatchVerdicts(b.messages, Admission(b.messages, b.results, b.rejected)))
  }

  ghost function PollStep(s: Loop, b: Batch, now: int): Loop
    requires s.stash.Valid() && ValidBatch(b)
  {
    if s.stopped then EndTick(s) else AfterPoll(s.(generation := b.generation), b, TickOf(b), now)
  }

  ghost function AckStep(s: Loop, now: int): Loop
    requires s.stash.Valid() && (s.phase.QuietAck? || s.phase.Acking?)
  {
    if s.stopped then EndTick(s)
    else if s.phase.QuietAck? || s.phase.tick.kept == [] then ServiceDeferred(s, now)
    else ContinuePlan(s, s.phase.tick, Plan(GroupsOf(s.phase.tick.kept), [], [], []), now)
  }

  function NoticeStep(s: Loop): Loop
    requires s.stash.Valid() && s.phase.Noticing?
  {
    if s.stopped then EndTick(s)
    else if s.phase.left > 0 then s.(phase := Noticing(s.phase.tick, s.phase.left - 1))
    else BeginAck(s, s.phase.tick)
  }

  function RetryStep(s: Loop, answer: FloorAnswer): Loop
    requires s.stash.Valid() && s.phase.RetryAsk?
  {
    var c, rest, at := s.phase.conversation, s.phase.rest, s.phase.at;
    if answer.Failed? then WalkRetries(s, rest, at)
    else if s.stopped then
      if answer.Granted? then s.(phase := RetryRelease(c, [], false, at)) else EndTick(s)
    else if answer.Denied? then WalkRetries(s, rest, at)
    else if s.inFlight then s.(phase := RetryRelease(c, [], false, at))
    else if c !in s.stash.at then s.(phase := RetryRelease(c, rest, true, at))
    else SpawnHeldBack(s, c, late => RetryTurn(c, late))
  }

  function SpawnStep(s: Loop, started: bool, now: int): Loop
    requires s.stash.Valid() && (s.phase.CoverTurn? || s.phase.OverrunTurn? || s.phase.RetryTurn?)
  {
    match s.phase
    case CoverTurn(floors, _, _, _) =>
      AfterCoverTurn(if started then CoverStarted(s) else CoverFailed(s), floors, now)
    case OverrunTurn(late, at) =>
      var t := HeldBackEnded(s, late, started);
      if started then EndTick(t) else WalkRetries(t, RetryOrder(t.stash, at), at)
    case RetryTurn(c, late) =>
      HeldBackEnded(s, late, started).(phase := RetryRelease(c, [], false, 0))
  }

  function ReleaseStep(s: Loop, now: int): Loop
    requires s.stash.Valid() && (s.phase.HandingBack? || s.phase.Releasing? || s.phase.RetryRelease?)
  {
    match s.phase
    case HandingBack(_, others) => ReleaseThenEnd(s, others)
    case Releasing(_, others) => AfterCoverTurn(s, others, now)
    case RetryRelease(_, rest, more, at) => if more then WalkRetries(s, rest, at) else EndTick(s)
  }

  ghost function Act(s: Loop, a: Action): Loop
    requires Ready(s, a)
  {
    match a
    case TickFires => if s.inFlight then s else s.(phase := Polling, deferredStarts := 0)
    case PollFails => EndTick(s)
    case PollReturns(b, now) => PollStep(s, b, now)
    case AckReturns(now) => AckStep(s, now)
    case NoticeReturns => NoticeStep(s)
    case FloorAnswers(answer, now) =>
      if s.phase.Planning? then ContinuePlan(s, s.phase.tick, Answered(s.phase.plan, answer), now) else RetryStep(s, answer)
    case SpawnDecided(started, now) => SpawnStep(s, started, now)
    case ReleaseReturns(now) => ReleaseStep(s, now)
    case Stop => FlushOnStop(s.(stopped := true))
  }

  // ---------------------------------------------------------------------
  // A logger that throws
  // ---------------------------------------------------------------------

  /** In a turn whose spawn is undecided; a covering turn's held-back messages are still in the stash. */
  ghost function Aboard(p: Phase): Keys {
    match p
    case CoverTurn(_, floored, _, _) => multiset(KeysOf(floored))
    case OverrunTurn(late, _) => multiset(EntryKeys(late.entries))
    case RetryTurn(c, late) => multiset(EntryKeys(late.entries))
    case _ => multiset{}
  }

  ghost function GroupKeys(gs: seq<Group>): Keys {
    if gs == [] then multiset{} else GroupKeys(gs[..|gs| - 1]) + multiset(KeysOf(gs[|gs| - 1].messages))
  }

  /** The exception unwinds the tick, whose cleanup forgets what only the tick knew of: `ks`. */
  ghost function Abandon(s: Loop, ks: Keys): Loop
    requires s.stash.Valid()
  {
    EndTick(s.(inFlight := false, ledger := s.ledger.(lost := s.ledger.lost + ks)))
  }

  /** What went wrong with the awaited request, or the spawn, is about to be logged. Floor planning also logs a denial,
      inside the request's own handler: a throw there is logged like a failed request, and only if that throws too is
      the tick over; else the conversation goes on without the floor, as `Failed` says. */
  predicate Reports(s: Loop, a: Action) {
    match a
    case PollFails => !s.stopped
    case PollReturns(_, _) => true
    case AckReturns(_) => true
    case NoticeReturns => true
    case FloorAnswers(answer, _) => answer.Failed? || (s.phase.Planning? && answer.Denied?)
    case SpawnDecided(started, _) => !started
    case ReleaseReturns(_) => s.phase.Releasing?
    case _ => false
  }

  ghost function ThrownReporting(s: Loop, a: Action): Loop
    requires Ready(s, a)
  {
    match a
    case PollReturns(b, _) => EndTick(if s.stopped then s else s.(generation := b.generation))
    case SpawnDecided(_, _) =>
      if s.phase.CoverTurn? then EndTick(CoverFailed(s))
      else Abandon(s.(effects := s.effects + [TurnEnded]), Aboard(s.phase))
    case _ => Abandon(s, multiset(KeysOf(s.unhanded)))
  }

  /** `r` has just spawned a turn, after a log line: a covering turn announces itself only if it covers a stash. */
  predicate Announces(s: Loop, r: Loop) {
    && r.inFlight && |r.effects| > |s.effects| && r.effects[|r.effects| - 1] == TurnStarted
    && (r.phase.CoverTurn? ==> r.phase.covered != [])
  }

  /** The region had come to `r` but for the spawn. */
  ghost function ThrownAnnouncing(s: Loop, r: Loop): Loop
    requires r.stash.Valid() && Announces(s, r)
  {
    Abandon(r.(effects := r.effects[..|r.effects| - 1], turns := s.turns), Aboard(r.phase))
  }

  function FinalPlan(s: Loop, a: Action): Plan
    requires s.phase.Planning? && s.phase.plan.waiting != [] && a.FloorAnswers?
  {
    SkipOperatorOnly(Answered(s.phase.plan, a.answer))
  }

  ghost function GroupDrops(s: Loop, gs: seq<Group>, g: nat, t: Tick, now: int): seq<Drop>
    requires s.stash.Valid() && g < |gs|
  {
    StashDrops(StashGroups(s, gs[..g], t, now).stash, gs[g].conversation, gs[g].messages, t.verdicts, now, Some(s.generation))
  }

  /** Conversations before `g` are stashed; `g` is too, but its drops from `d` on get no record. */
  ghost function StashUpTo(s: Loop, gs: seq<Group>, g: nat, d: nat, t: Tick, now: int): (r: Loop)
    requires s.stash.Valid() && g < |gs| && d <= |GroupDrops(s, gs, g, t, now)|
    ensures r.stash.Valid()
  {
    var before := StashGroups(s, gs[..g], t, now);
    var r := StashGroup(before, gs[g], t, now);
    r.(ledger := r.ledger.(dead := before.ledger.dead + DroppedKeys(GroupDrops(s, gs, g, t, now)[..d])))
  }

  ghost predicate CanDrop(s: Loop, a: Action, g: nat, d: nat) {
    && s.stash.Valid() && !s.stopped && a.FloorAnswers? && s.phase.Planning? && s.phase.plan.waiting != []
    && var q := FinalPlan(s, a);
       q.waiting == [] && g < |q.deferred| && d < |GroupDrops(s, q.deferred, g, s.phase.tick, a.now)|
  }

  ghost function ThrownDropping(s: Loop, a: Action, g: nat, d: nat): Loop
    requires CanDrop(s, a, g, d)
  {
    var q, t := FinalPlan(s, a), s.phase.tick;
    Abandon(StashUpTo(s, q.deferred, g, d, t, a.now),
            DroppedKeys(GroupDrops(s, q.deferred, g, t, a.now)[d..]) + GroupKeys(q.deferred[g + 1..]) + multiset(KeysOf(q.floored)))
  }

  ghost predicate CanThrow(s: Loop, a: Action, site: Site) {
    && Ready(s, a)
    && match site
       case Reporting => Reports(s, a)
       case Recorded => s.phase.RetryTurn? && a.SpawnDecided? && !a.started
       case Announcing => Act(s, a).stash.Valid() && Announces(s, Act(s, a))
       case Dropping(g, d) => CanDrop(s, a, g, d)
  }

  ghost function Thrown(s: Loop, a: Action, site: Site): Loop
    requires CanThrow(s, a, site)
  {
    match site
    case Reporting => ThrownReporting(s, a)
    case Recorded => EndTick(HeldBackEnded(s, s.phase.late, false))
    case Announcing => ThrownAnnouncing(s, Act(s, a))
    case Dropping(g, d) => ThrownDropping(s, a, g, d)
  }

  // ---------------------------------------------------------------------
  // Runs
  // ---------------------------------------------------------------------

  ghost predicate Enabled(s: Loop, a: Action) {
    if a.TickThrows? then CanThrow(s, a.during, a.site) else Ready(s, a)
  }

  ghost function Next(s: Loop, a: Action): Loop
    requires Enabled(s, a)
  {
    if a.TickThrows? then Thrown(s, a.during, a.site) else Act(s, a)
  }

  ghost predicate IsRun(ss: seq<Loop>, acts: seq<Action>) {
    && |ss| == |acts| + 1 && ss[0] == Start(ss[0].generation)
    && forall i :: 0 <= i < |acts| ==> Enabled(ss[i], acts[i]) && ss[i + 1] == Next(ss[i], acts[i])
  }

  lemma RunStart(ss: seq<Loop>, acts: seq<Action>)
    requires IsRun(ss, acts)
    ensures ss[0] == Start(ss[0].generation)
  {
    hide Enabled, Next;
  }

  lemma RunStep(ss: seq<Loop>, acts: seq<Action>, i: nat)
    requires IsRun(ss, acts) && i < |acts|
    ensures Enabled(ss[i], acts[i]) && ss[i + 1] == Next(ss[i], acts[i])
  {
    hide Enabled, Next;
  }

  lemma RunAct(ss: seq<Loop>, acts: seq<Action>, i: nat)
    requires IsRun(ss, acts) && i < |acts| && !acts[i].TickThrows?
    ensures Ready(ss[i], acts[i]) && ss[i + 1] == Act(ss[i], acts[i])
  {
    hide Ready, Act, CanThrow, Thrown;
    RunStep(ss, acts, i);
  }
}
