/** The labels of the Hermes twin's late turns: a stash keeps each verdict beside the message it was computed for. The
    twin stamps no trust generation on them, so a pass outlives a change of the pins. */
module TwinLabels {
  import opened OrderedMaps
  import opened Messages
  import opened Stashing
  import opened Covering
  import ReplyLoop
  import opened LoopShape
  import opened LateDelivery

  /** A late turn's labels: the stored verdicts as they are. */
  function StoredLabels(es: seq<StashEntry>): Verdicts {
    if es == [] then map[] else StoredLabels(es[..|es| - 1])[KeyOf(es[|es| - 1].message) := es[|es| - 1].verdict]
  }

  /** Tick `j` was handed this verdict for this very material. */
  ghost predicate JudgedAt(ins: seq<Input>, j: nat, k: HeldKey, v: Option<Verdict>) {
    j < |ins| && k in ins[j].verdicts && ins[j].verdicts[k] == v
  }

  ghost predicate WasJudged(ins: seq<Input>, k: HeldKey, v: Option<Verdict>) {
    exists j :: JudgedAt(ins, j, k, v)
  }

  ghost predicate Judged(ins: seq<Input>, e: StashEntry) {
    Passing(e.verdict) ==> WasJudged(ins, KeyOf(e.message), e.verdict)
  }

  ghost predicate AllJudged(ins: seq<Input>, d: Stashes) {
    forall c, e :: c in d.at && e in d.at[c].entries ==> Judged(ins, e)
  }

  lemma StashJudged(ins: seq<Input>, j: nat, d: Stashes, c: string, msgs: seq<Message>)
    requires d.Valid() && AllJudged(ins, d) && j < |ins|
    ensures AllJudged(ins, StashAfter(d, c, msgs, ins[j].verdicts, ins[j].now, None))
  {
    var vs, r := ins[j].verdicts, StashAfter(d, c, msgs, ins[j].verdicts, ins[j].now, None);
    forall x, e | x in r.at && e in r.at[x].entries ensures Judged(ins, e) {
      StashedVerdicts(d, c, msgs, vs, ins[j].now, None, x, e);
      if x == c && Inherited(e, EntriesOf(d, c), vs, None) { InheritedJudged(ins, j, d, c, e); }
    }
  }

  lemma InheritedJudged(ins: seq<Input>, j: nat, d: Stashes, c: string, e: StashEntry)
    requires AllJudged(ins, d) && j < |ins| && Inherited(e, EntriesOf(d, c), ins[j].verdicts, None)
    ensures Judged(ins, e)
  {
    var k, es := KeyOf(e.message), EntriesOf(d, c);
    if Passing(e.verdict) {
      if k in ins[j].verdicts && e.verdict == ins[j].verdicts[k] {
        assert JudgedAt(ins, j, k, e.verdict);
      } else {
        var o :| o in es && KeyOf(o.message) == k && o.verdict == e.verdict && o.generation == e.generation;
        assert Judged(ins, o);
      }
    }
  }

  lemma {:induction false} DeferAllJudged(ins: seq<Input>, j: nat, q: Queue, gs: seq<ReplyLoop.Group>)
    requires q.stash.Valid() && AllJudged(ins, q.stash) && j < |ins|
    ensures AllJudged(ins, DeferAll(q, gs, ins[j].verdicts, ins[j].now).stash)
  {
    if gs != [] {
      var n := |gs| - 1;
      DeferAllJudged(ins, j, q, gs[..n]);
      StashJudged(ins, j, DeferAll(q, gs[..n], ins[j].verdicts, ins[j].now).stash, gs[n].conversation, gs[n].messages);
    }
  }

  lemma BeforeServiceJudged(ins: seq<Input>, j: nat, q: Queue)
    requires q.stash.Valid() && AllJudged(ins, q.stash) && j < |ins|
    ensures AllJudged(ins, BeforeService(q, ins[j]).stash)
  {
    DeferAllJudged(ins, j, q, ins[j].deferred);
  }

  lemma TickJudged(ins: seq<Input>, j: nat, q: Queue, r: Queue)
    requires q.stash.Valid() && AllJudged(ins, q.stash) && j < |ins| && Tick(q, ins[j], r)
    ensures AllJudged(ins, r.stash)
  {
    BeforeServiceJudged(ins, j, q);
    ServiceJudged(ins, j, BeforeService(q, ins[j]));
  }

  lemma ServiceJudged(ins: seq<Input>, j: nat, q: Queue)
    requires q.stash.Valid() && AllJudged(ins, q.stash) && j < |ins| && MayService(q, ins[j])
    ensures AllJudged(ins, Service(q, ins[j]).stash)
  {
  }

  lemma {:induction false} RunJudged(qs: seq<Queue>, ins: seq<Input>, n: nat)
    requires IsRun(qs, ins) && n <= |ins| && qs[0].stash == EmptyMap()
    ensures AllJudged(ins[..n], qs[n].stash)
  {
    if n > 0 {
      RunJudged(qs, ins, n - 1);
      RunTidy(qs, ins, n - 1);
      JudgedLater(ins[..n - 1], ins[..n], qs[n - 1].stash);
      assert Tick(qs[n - 1], ins[..n][n - 1], qs[n - 1 + 1]);
      TickJudged(ins[..n], n - 1, qs[n - 1], qs[n]);
    }
  }

  lemma JudgedLater(ins: seq<Input>, more: seq<Input>, d: Stashes)
    requires AllJudged(ins, d) && ins <= more
    ensures AllJudged(more, d)
  {
    forall c, e | c in d.at && e in d.at[c].entries ensures Judged(more, e) {
      assert Judged(ins, e);
      if Passing(e.verdict) {
        var j :| JudgedAt(ins, j, KeyOf(e.message), e.verdict);
        assert JudgedAt(more, j, KeyOf(e.message), e.verdict);
      }
    }
  }

  lemma {:induction false} LabelFromEntry(es: seq<StashEntry>, k: HeldKey)
    requires k in StoredLabels(es)
    ensures exists e :: e in es && KeyOf(e.message) == k && e.verdict == StoredLabels(es)[k]
  {
    var n := |es| - 1;
    assert es[n] in es;
    if k != KeyOf(es[n].message) {
      LabelFromEntry(es[..n], k);
      var e :| e in es[..n] && KeyOf(e.message) == k && e.verdict == StoredLabels(es[..n])[k];
      assert e in es;
    }
  }

  /** In every run from an empty stash: whatever a late turn of the twin renders as passing was handed to this tick
      or an earlier one as the verdict of identical material, however ids are reused. The turn is served from the
      stash as the tick has left it before servicing. Under which pins, it does not ask. */
  lemma LatePassesAreJudged(qs: seq<Queue>, ins: seq<Input>, n: nat, c: string, k: HeldKey)
    requires IsRun(qs, ins) && n < |ins| && qs[0].stash == EmptyMap() && qs[n].stash.Valid()
    requires c in BeforeService(qs[n], ins[n]).stash.at
    requires var labels := StoredLabels(BeforeService(qs[n], ins[n]).stash.at[c].entries); k in labels && Passing(labels[k])
    ensures WasJudged(ins[..n + 1], k, StoredLabels(BeforeService(qs[n], ins[n]).stash.at[c].entries)[k])
  {
    var upTo, es := ins[..n + 1], BeforeService(qs[n], ins[n]).stash.at[c].entries;
    RunJudged(qs, ins, n);
    JudgedLater(ins[..n], upTo, qs[n].stash);
    assert upTo[n] == ins[n];
    BeforeServiceJudged(upTo, n, qs[n]);
    LabelFromEntry(es, k);
    var e :| e in es && KeyOf(e.message) == k && e.verdict == StoredLabels(es)[k];
    assert Judged(upTo, e);
  }
}
