/** Who gets a turn. Floor planning asks for the floor of each conversation with a peer message exactly once; a
    conversation whose floor is denied is kept out of the turn whole, every other one is aboard it whole, and the
    floors the turn holds are exactly those granted. */
module LoopPlans {
  import opened OrderedMaps
  import opened Messages
  import opened Covering
  import opened ReplyLoop

  /** What one conversation's request for the floor was answered. */
  datatype Reply = Reply(conversation: string, answer: FloorAnswer)

  /** The conversations asked for, in order. */
  function Asked(log: seq<Reply>): (r: seq<string>)
    ensures |r| == |log| && forall i :: 0 <= i < |log| ==> r[i] == log[i].conversation
  {
    seq(|log|, i requires 0 <= i < |log| => log[i].conversation)
  }

  /** The conversations answered `answer`, in order. */
  function Heard(log: seq<Reply>, answer: FloorAnswer): seq<string> {
    if log == [] then []
    else Heard(log[..|log| - 1], answer) + (if log[|log| - 1].answer == answer then [log[|log| - 1].conversation] else [])
  }

  lemma HeardSnoc(log: seq<Reply>, x: Reply, answer: FloorAnswer)
    ensures Heard(log + [x], answer) == Heard(log, answer) + (if x.answer == answer then [x.conversation] else [])
  {
    assert (log + [x])[..|log|] == log;
  }

  lemma AskedSnoc(log: seq<Reply>, x: Reply)
    ensures Asked(log + [x]) == Asked(log) + [x.conversation]
    ensures NoDup(Asked(log)) && x.conversation !in Asked(log) ==> NoDup(Asked(log + [x]))
  {
    assert Asked(log + [x]) == Asked(log) + [x.conversation];
    assert (Asked(log) + [x.conversation])[..|log|] == Asked(log);
  }

  /** Each conversation is asked for at most once, so a conversation was answered one thing only. */
  lemma {:induction false} HeardIff(log: seq<Reply>, c: string, answer: FloorAnswer)
    ensures c in Heard(log, answer) <==> Reply(c, answer) in log
  {
    if log != [] {
      var n := |log| - 1;
      assert log == log[..n] + [log[n]];
      HeardIff(log[..n], c, answer);
    }
  }

  // ---------------------------------------------------------------------
  // Conversations of a batch
  // ---------------------------------------------------------------------

  function Names(gs: seq<Group>): (r: seq<string>)
    ensures |r| == |gs| && forall i :: 0 <= i < |gs| ==> r[i] == gs[i].conversation
  {
    seq(|gs|, i requires 0 <= i < |gs| => gs[i].conversation)
  }

  /** The messages of one conversation, in order. */
  function Of(kept: seq<Message>, c: string): seq<Message> {
    if kept == [] then []
    else Of(kept[..|kept| - 1], c) + (if kept[|kept| - 1].conversation == c then [kept[|kept| - 1]] else [])
  }

  lemma OfSnoc(kept: seq<Message>, m: Message, c: string)
    ensures Of(kept + [m], c) == Of(kept, c) + (if m.conversation == c then [m] else [])
    ensures m.conversation != c ==> Of(kept + [m], c) == Of(kept, c)
  {
    assert (kept + [m])[..|kept|] == kept;
  }

  lemma {:induction false} OfHas(kept: seq<Message>, c: string, m: Message)
    ensures m in Of(kept, c) <==> m in kept && m.conversation == c
  {
    if kept != [] {
      var n := |kept| - 1;
      OfHas(kept[..n], c, m);
      assert kept == kept[..n] + [kept[n]];
    }
  }

  /** All the kept messages of its conversation, in order. */
  ghost predicate Whole(kept: seq<Message>, g: Group) {
    g.messages == Of(kept, g.conversation)
  }

  lemma WholeHas(kept: seq<Message>, g: Group)
    requires Whole(kept, g)
    ensures forall m :: m in g.messages <==> m in kept && m.conversation == g.conversation
  {
    forall m ensures m in g.messages <==> m in kept && m.conversation == g.conversation { OfHas(kept, g.conversation, m); }
  }

  lemma {:induction false} NoneOf(kept: seq<Message>, c: string)
    requires !Writes(kept, c)
    ensures Of(kept, c) == []
  {
    if kept != [] {
      var n := |kept| - 1;
      assert kept == kept[..n] + [kept[n]] && kept[n] in kept;
      assert !Writes(kept[..n], c);
      NoneOf(kept[..n], c);
    }
  }

  ghost predicate AllWhole(kept: seq<Message>, gs: seq<Group>) {
    forall i :: 0 <= i < |gs| ==> Whole(kept, gs[i])
  }

  ghost predicate Apart(gs: seq<Group>) {
    forall i, j :: 0 <= i < j < |gs| ==> gs[i].conversation != gs[j].conversation
  }

  ghost predicate Writes(kept: seq<Message>, c: string) {
    exists m :: m in kept && m.conversation == c
  }

  ghost predicate PeerWrites(kept: seq<Message>, c: string) {
    exists m :: m in kept && m.conversation == c && m.kind == Peer
  }

  lemma HasGroupAt(gs: seq<Group>, c: string)
    ensures HasGroup(gs, c) <==> exists i :: 0 <= i < |gs| && gs[i].conversation == c
  {
    if HasGroup(gs, c) {
      var g :| g in gs && g.conversation == c;
      var i :| 0 <= i < |gs| && gs[i] == g;
    }
    if i :| 0 <= i < |gs| && gs[i].conversation == c { assert gs[i] in gs; }
  }

  /** A message joins its conversation's group and no other. */
  ghost predicate Joined(gs: seq<Group>, m: Message, r: seq<Group>) {
    && |r| == |gs| && (forall i :: 0 <= i < |gs| ==> r[i].conversation == gs[i].conversation)
    && forall i :: 0 <= i < |gs| ==> r[i].messages == if gs[i].conversation == m.conversation then gs[i].messages + [m] else gs[i].messages
  }

  lemma {:induction false} AddJoins(gs: seq<Group>, m: Message)
    requires Apart(gs) && HasGroup(gs, m.conversation)
    ensures Joined(gs, m, AddToGroup(gs, m))
  {
    var n := |gs| - 1;
    var init := gs[..n];
    assert gs == init + [gs[n]];
    if gs[n].conversation != m.conversation { AddJoins(init, m); }
  }

  lemma JoinedIsWhole(kept: seq<Message>, gs: seq<Group>, m: Message, r: seq<Group>, c: string)
    requires AllWhole(kept, gs) && Apart(gs) && Joined(gs, m, r)
    ensures AllWhole(kept + [m], r) && Apart(r) && (HasGroup(r, c) <==> HasGroup(gs, c))
  {
    HasGroupAt(gs, c);
    HasGroupAt(r, c);
    forall i | 0 <= i < |r| ensures Whole(kept + [m], r[i]) {
      assert Whole(kept, gs[i]);
      OfSnoc(kept, m, gs[i].conversation);
    }
  }

  lemma NewGroupIsWhole(kept: seq<Message>, gs: seq<Group>, m: Message, c: string)
    requires AllWhole(kept, gs) && Apart(gs) && !HasGroup(gs, m.conversation) && !Writes(kept, m.conversation)
    ensures
      var r := gs + [Group(m.conversation, [m])];
      AllWhole(kept + [m], r) && Apart(r) && (HasGroup(r, c) <==> HasGroup(gs, c) || c == m.conversation)
  {
    var r := gs + [Group(m.conversation, [m])];
    HasGroupAt(gs, m.conversation);
    HasGroupAt(gs, c);
    HasGroupAt(r, c);
    if c == m.conversation { assert r[|gs|].conversation == c; }
    if i :| 0 <= i < |gs| && gs[i].conversation == c { assert r[i].conversation == c; }
    NoneOf(kept, m.conversation);
    forall i | 0 <= i < |r| ensures Whole(kept + [m], r[i]) {
      OfSnoc(kept, m, r[i].conversation);
      if i < |gs| { assert Whole(kept, gs[i]); }
    }
  }

  lemma WritesSnoc(kept: seq<Message>, m: Message, c: string)
    ensures Writes(kept + [m], c) <==> Writes(kept, c) || m.conversation == c
  {
    if Writes(kept, c) { var x :| x in kept && x.conversation == c; assert x in kept + [m]; }
    assert m in kept + [m];
  }

  lemma GroupsSnoc(kept: seq<Message>, m: Message)
    ensures
      var rest := GroupsOf(kept);
      GroupsOf(kept + [m]) == if HasGroup(rest, m.conversation) then AddToGroup(rest, m) else rest + [Group(m.conversation, [m])]
  {
    assert (kept + [m])[..|kept|] == kept;
  }

  /** Grouping makes one group of each conversation, with all its messages. */
  lemma {:induction false} GroupsAreConversations(kept: seq<Message>, c: string)
    ensures AllWhole(kept, GroupsOf(kept)) && Apart(GroupsOf(kept)) && (HasGroup(GroupsOf(kept), c) <==> Writes(kept, c))
    decreases |kept|
  {
    if kept != [] {
      hide GroupsOf, AddToGroup, AllWhole, Apart, Writes, HasGroup;
      var n := |kept| - 1;
      var init, m := kept[..n], kept[n];
      assert kept == init + [m];
      var gs := GroupsOf(init);
      GroupsAreConversations(init, c);
      GroupsAreConversations(init, m.conversation);
      GroupsSnoc(init, m);
      WritesSnoc(init, m, c);
      if HasGroup(gs, m.conversation) {
        AddJoins(gs, m);
        JoinedIsWhole(init, gs, m, AddToGroup(gs, m), c);
      } else {
        NewGroupIsWhole(init, gs, m, c);
      }
    } else {
      HasGroupAt([], c);
    }
  }

  // ---------------------------------------------------------------------
  // The plan in the light of the answers
  // ---------------------------------------------------------------------

  /** The messages of the conversations `cs` but those in `out`, conversation by conversation. */
  function FlatOf(kept: seq<Message>, cs: seq<string>, out: seq<string>): seq<Message> {
    if cs == [] then []
    else FlatOf(kept, cs[..|cs| - 1], out) + (if cs[|cs| - 1] in out then [] else Of(kept, cs[|cs| - 1]))
  }

  lemma FlatSnoc(kept: seq<Message>, cs: seq<string>, c: string, out: seq<string>)
    ensures FlatOf(kept, cs + [c], out) == FlatOf(kept, cs, out) + (if c in out then [] else Of(kept, c))
    ensures c in out ==> FlatOf(kept, cs + [c], out) == FlatOf(kept, cs, out)
  {
    assert (cs + [c])[..|cs|] == cs;
  }

  lemma {:induction false} FlatOfOthers(kept: seq<Message>, cs: seq<string>, out: seq<string>, c: string)
    requires c !in cs
    ensures FlatOf(kept, cs, out + [c]) == FlatOf(kept, cs, out)
  {
    if cs != [] {
      assert cs == cs[..|cs| - 1] + [cs[|cs| - 1]];
      FlatOfOthers(kept, cs[..|cs| - 1], out, c);
    }
  }

  /** The turn so far is laid out in the order in which the conversations are planned. */
  ghost predicate Laid(kept: seq<Message>, all: seq<string>, p: Plan, log: seq<Reply>) {
    && |p.waiting| <= |all| && Names(p.waiting) == all[|all| - |p.waiting|..]
    && p.floored == FlatOf(kept, all[..|all| - |p.waiting|], Heard(log, Denied))
  }

  lemma NextOf(all: seq<string>, n: nat)
    requires n < |all| && NoDup(all)
    ensures all[n..][1..] == all[n + 1..] && all[..n + 1] == all[..n] + [all[n]] && all[n] !in all[..n]
  {
    hide NoDup;
    if all[n] in all[..n] {
      var i :| 0 <= i < n && all[i] == all[n];
      NoDupPointwise(all, i, n);
    }
  }

  lemma PlannedNext(kept: seq<Message>, all: seq<string>, p: Plan, log: seq<Reply>)
    requires Laid(kept, all, p, log) && p.waiting != [] && NoDup(all)
    ensures
      var n, c := |all| - |p.waiting|, p.waiting[0].conversation;
      && Names(p.waiting[1..]) == all[n + 1..] && all[..n + 1] == all[..n] + [c] && c !in all[..n]
  {
    hide NoDup, FlatOf, Heard;
    NextOf(all, |all| - |p.waiting|);
    assert Names(p.waiting)[0] == p.waiting[0].conversation;
    assert Names(p.waiting[1..]) == Names(p.waiting)[1..];
  }

  lemma SkipOneLaid(kept: seq<Message>, all: seq<string>, p: Plan, log: seq<Reply>)
    requires Laid(kept, all, p, log) && NoDup(all) && Sorted(kept, p, log) && p.waiting != [] && !HasPeer(p.waiting[0])
    ensures Laid(kept, all, p.(waiting := p.waiting[1..], floored := p.floored + p.waiting[0].messages), log)
  {
    hide Heard, HasPeer, FlatOf, Accounted, NoDup;
    var g := p.waiting[0];
    PlannedNext(kept, all, p, log);
    HeardAsked(log, g.conversation, Denied);
    FlatSnoc(kept, all[..|all| - |p.waiting|], g.conversation, Heard(log, Denied));
    assert Whole(kept, g);
  }

  lemma {:induction false} SkipLaid(kept: seq<Message>, all: seq<string>, p: Plan, log: seq<Reply>)
    requires Laid(kept, all, p, log) && NoDup(all) && Sorted(kept, p, log)
    ensures Laid(kept, all, SkipOperatorOnly(p), log)
    decreases |p.waiting|
  {
    hide Sorted, Laid;
    if p.waiting != [] && !HasPeer(p.waiting[0]) {
      var r := p.(waiting := p.waiting[1..], floored := p.floored + p.waiting[0].messages);
      SkipOneLaid(kept, all, p, log);
      SkipOneSorted(kept, p, log);
      SkipLaid(kept, all, r, log);
    }
  }

  lemma AnsweredLaid(kept: seq<Message>, all: seq<string>, p: Plan, log: seq<Reply>, answer: FloorAnswer)
    requires Laid(kept, all, p, log) && NoDup(all) && Sorted(kept, p, log) && p.waiting != []
    ensures Laid(kept, all, Answered(p, answer), log + [Reply(p.waiting[0].conversation, answer)])
  {
    hide Heard, FlatOf, Accounted, NoDup;
    var g, n, denied := p.waiting[0], |all| - |p.waiting|, Heard(log, Denied);
    var more := Heard(log + [Reply(g.conversation, answer)], Denied);
    PlannedNext(kept, all, p, log);
    HeardAsked(log, g.conversation, Denied);
    HeardSnoc(log, Reply(g.conversation, answer), Denied);
    assert denied + [] == denied;
    FlatOfOthers(kept, all[..n], denied, g.conversation);
    FlatSnoc(kept, all[..n], g.conversation, more);
    assert Whole(kept, g);
  }

  lemma AppearanceSnoc(kept: seq<Message>, m: Message)
    ensures
      var u := Union([], ConversationsOf(kept));
      Union([], ConversationsOf(kept + [m])) == if m.conversation in u then u else u + [m.conversation]
  {
    var cs := ConversationsOf(kept + [m]);
    assert cs == ConversationsOf(kept) + [m.conversation];
    assert cs[..|kept|] == ConversationsOf(kept);
  }

  lemma NamesGrow(gs: seq<Group>, m: Message)
    requires Apart(gs)
    ensures HasGroup(gs, m.conversation) ==> Names(AddToGroup(gs, m)) == Names(gs)
    ensures Names(gs + [Group(m.conversation, [m])]) == Names(gs) + [m.conversation]
  {
    if HasGroup(gs, m.conversation) { AddJoins(gs, m); }
  }

  /** The conversations are planned in the order of their first messages. */
  lemma {:induction false} PlannedByAppearance(kept: seq<Message>)
    ensures Names(GroupsOf(kept)) == Union([], ConversationsOf(kept))
  {
    if kept == [] {
      assert ConversationsOf(kept) == [];
    } else {
      hide AddToGroup, AllWhole, Writes, HasGroup, Union, Apart;
      var n := |kept| - 1;
      var init, m := kept[..n], kept[n];
      assert kept == init + [m];
      PlannedByAppearance(init);
      GroupsAreConversations(init, m.conversation);
      GroupsSnoc(init, m);
      AppearanceSnoc(init, m);
      HasGroupNamed(GroupsOf(init), m.conversation);
      NamesGrow(GroupsOf(init), m);
    }
  }

  lemma HasGroupNamed(gs: seq<Group>, c: string)
    ensures HasGroup(gs, c) <==> c in Names(gs)
  {
    HasGroupAt(gs, c);
    if c in Names(gs) { var i :| 0 <= i < |gs| && Names(gs)[i] == c; }
    if HasGroup(gs, c) {
      var i :| 0 <= i < |gs| && gs[i].conversation == c;
      assert Names(gs)[i] == c;
    }
  }

  lemma StartsLaid(kept: seq<Message>)
    ensures Laid(kept, Union([], ConversationsOf(kept)), Plan(GroupsOf(kept), [], [], []), [])
  {
    hide GroupsOf, Union;
    PlannedByAppearance(kept);
  }

  /** Its conversation no longer waits, and was not denied the floor. */
  ghost predicate Cleared(kept: seq<Message>, p: Plan, log: seq<Reply>, m: Message) {
    m in kept && !HasGroup(p.waiting, m.conversation) && m.conversation !in Heard(log, Denied)
  }

  ghost predicate Accounted(kept: seq<Message>, p: Plan, log: seq<Reply>) {
    && Names(p.deferred) == Heard(log, Denied)
    && p.toRelease == Heard(log, Granted)
    && (forall m :: m in p.floored <==> Cleared(kept, p, log, m))
  }

  ghost predicate AskedRightly(kept: seq<Message>, p: Plan, log: seq<Reply>) {
    && NoDup(Asked(log))
    && (forall i :: 0 <= i < |p.waiting| ==> p.waiting[i].conversation !in Asked(log))
    && (forall c :: c in Asked(log) ==> PeerWrites(kept, c))
    && (forall c :: PeerWrites(kept, c) ==> c in Asked(log) || HasGroup(p.waiting, c))
  }

  ghost predicate Sorted(kept: seq<Message>, p: Plan, log: seq<Reply>) {
    && AllWhole(kept, p.waiting) && AllWhole(kept, p.deferred) && Apart(p.waiting)
    && Accounted(kept, p, log) && AskedRightly(kept, p, log)
  }

  lemma StartsSorted(kept: seq<Message>)
    ensures Sorted(kept, Plan(GroupsOf(kept), [], [], []), [])
  {
    hide GroupsOf, HasGroup;
    GroupsAreConversations(kept, "");
    forall c ensures HasGroup(GroupsOf(kept), c) <==> Writes(kept, c) { GroupsAreConversations(kept, c); }
    forall c | PeerWrites(kept, c) ensures Writes(kept, c) { var m :| m in kept && m.conversation == c && m.kind == Peer; }
    forall m | m in kept ensures Writes(kept, m.conversation) {}
  }

  /** The first group leaves the queue. */
  lemma PoppedHas(gs: seq<Group>, c: string)
    requires gs != [] && Apart(gs)
    ensures HasGroup(gs[1..], c) <==> HasGroup(gs, c) && c != gs[0].conversation
    ensures HasGroup(gs, gs[0].conversation)
  {
    HasGroupAt(gs, c);
    HasGroupAt(gs[1..], c);
    assert gs[0] in gs;
    if i :| 0 <= i < |gs| && gs[i].conversation == c && c != gs[0].conversation { assert gs[1..][i - 1] == gs[i]; }
    if i :| 0 <= i < |gs[1..]| && gs[1..][i].conversation == c { assert gs[1..][i] == gs[i + 1]; }
  }

  lemma {:induction false} FirstPeer(kept: seq<Message>, g: Group)
    requires Whole(kept, g)
    ensures HasPeer(g) <==> PeerWrites(kept, g.conversation)
  {
    WholeHas(kept, g);
    if HasPeer(g) {
      var m :| m in g.messages && m.kind == Peer;
      assert m in kept && m.conversation == g.conversation;
    }
    if PeerWrites(kept, g.conversation) {
      var m :| m in kept && m.conversation == g.conversation && m.kind == Peer;
      assert m in g.messages;
    }
  }

  lemma SkipOneSorted(kept: seq<Message>, p: Plan, log: seq<Reply>)
    requires Sorted(kept, p, log) && p.waiting != [] && !HasPeer(p.waiting[0])
    ensures Sorted(kept, p.(waiting := p.waiting[1..], floored := p.floored + p.waiting[0].messages), log)
  {
    hide HasGroup, Heard, HasPeer, PeerWrites, Of;
    var g, r := p.waiting[0], p.(waiting := p.waiting[1..], floored := p.floored + p.waiting[0].messages);
    FirstPeer(kept, g);
    HeardAsked(log, g.conversation, Denied);
    forall c ensures HasGroup(r.waiting, c) <==> HasGroup(p.waiting, c) && c != g.conversation { PoppedHas(p.waiting, c); }
    forall m ensures m in r.floored <==> Cleared(kept, r, log, m) {
      assert m in p.floored <==> Cleared(kept, p, log, m);
      assert Whole(kept, g);
      OfHas(kept, g.conversation, m);
      PoppedHas(p.waiting, m.conversation);
    }
  }

  lemma HeardAsked(log: seq<Reply>, c: string, answer: FloorAnswer)
    ensures c in Heard(log, answer) ==> c in Asked(log)
  {
    HeardIff(log, c, answer);
    if c in Heard(log, answer) {
      var i :| 0 <= i < |log| && log[i] == Reply(c, answer);
      assert Asked(log)[i] == c;
    }
  }

  lemma {:induction false} SkipSorted(kept: seq<Message>, p: Plan, log: seq<Reply>)
    requires Sorted(kept, p, log)
    ensures Sorted(kept, SkipOperatorOnly(p), log)
    decreases |p.waiting|
  {
    hide Sorted;
    if p.waiting != [] && !HasPeer(p.waiting[0]) {
      SkipOneSorted(kept, p, log);
      SkipSorted(kept, p.(waiting := p.waiting[1..], floored := p.floored + p.waiting[0].messages), log);
    }
  }

  lemma AnsweredAccounted(kept: seq<Message>, p: Plan, log: seq<Reply>, answer: FloorAnswer)
    requires Sorted(kept, p, log) && p.waiting != []
    ensures Accounted(kept, Answered(p, answer), log + [Reply(p.waiting[0].conversation, answer)])
  {
    hide HasGroup, Heard, HasPeer, PeerWrites, Of;
    var g, r := p.waiting[0], Answered(p, answer);
    var more := log + [Reply(g.conversation, answer)];
    HeardSnoc(log, Reply(g.conversation, answer), Denied);
    HeardSnoc(log, Reply(g.conversation, answer), Granted);
    HeardAsked(log, g.conversation, Denied);
    assert Names(p.deferred + [g]) == Names(p.deferred) + [g.conversation];
    forall m ensures m in r.floored <==> Cleared(kept, r, more, m) {
      assert m in p.floored <==> Cleared(kept, p, log, m);
      assert Whole(kept, g);
      OfHas(kept, g.conversation, m);
      PoppedHas(p.waiting, m.conversation);
    }
  }

  /** The conversation asked for leaves the queue and joins the log. */
  lemma LoggedAsked(kept: seq<Message>, p: Plan, r: Plan, log: seq<Reply>, x: Reply)
    requires AskedRightly(kept, p, log) && p.waiting != [] && Apart(p.waiting) && r.waiting == p.waiting[1..]
    requires x.conversation == p.waiting[0].conversation && PeerWrites(kept, x.conversation)
    requires forall c :: HasGroup(r.waiting, c) <==> HasGroup(p.waiting, c) && c != x.conversation
    ensures AskedRightly(kept, r, log + [x])
  {
    hide HasGroup, PeerWrites, NoDup;
    AskedSnoc(log, x);
    forall i | 0 <= i < |r.waiting| ensures r.waiting[i].conversation !in Asked(log + [x]) {
      assert r.waiting[i] == p.waiting[i + 1];
    }
  }

  lemma AnsweredAsked(kept: seq<Message>, p: Plan, log: seq<Reply>, answer: FloorAnswer)
    requires Sorted(kept, p, log) && p.waiting != [] && HasPeer(p.waiting[0])
    ensures AskedRightly(kept, Answered(p, answer), log + [Reply(p.waiting[0].conversation, answer)])
  {
    hide HasGroup, HasPeer, PeerWrites, Whole, AskedRightly, Accounted;
    var g, r := p.waiting[0], Answered(p, answer);
    assert Whole(kept, g);
    FirstPeer(kept, g);
    forall c ensures HasGroup(r.waiting, c) <==> HasGroup(p.waiting, c) && c != g.conversation { PoppedHas(p.waiting, c); }
    LoggedAsked(kept, p, r, log, Reply(g.conversation, answer));
  }

  lemma AnsweredSorted(kept: seq<Message>, p: Plan, log: seq<Reply>, answer: FloorAnswer)
    requires Sorted(kept, p, log) && p.waiting != [] && HasPeer(p.waiting[0])
    ensures Sorted(kept, Answered(p, answer), log + [Reply(p.waiting[0].conversation, answer)])
  {
    hide Accounted, AskedRightly;
    AnsweredAccounted(kept, p, log, answer);
    AnsweredAsked(kept, p, log, answer);
    assert Whole(kept, p.waiting[0]);
    var r := Answered(p, answer);
    assert forall i :: 0 <= i < |r.waiting| ==> r.waiting[i] == p.waiting[i + 1];
  }
}
