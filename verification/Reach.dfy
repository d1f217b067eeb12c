/**
 What a run can lead to.
 */
module Reach {
  import opened Nodes
  import opened Upgrade
  import opened Protocol

  /** Some run within the discipline ends in w'. */
  ghost predicate Leads(d: Discipline, w: World, w': World) {
    exists es :: IsRun(d, w, es) && Run(d, w, es) == w'
  }

  lemma LeadsByStep(d: Discipline, w: World, e: Event)
    requires Enabled(w, e) && Obeys(d, w, e)
    ensures Leads(d, w, Do(w, e))
  {
    var w' := Do(w, e);
    assert IsRun(d, w', []) && Run(d, w', []) == w' && [e][1..] == [];
    assert IsRun(d, w, [e]) && Run(d, w, [e]) == w';
  }

  lemma {:induction false} Concatenated(d: Discipline, w: World, es: seq<Event>, fs: seq<Event>)
    requires IsRun(d, w, es) && IsRun(d, Run(d, w, es), fs)
    ensures IsRun(d, w, es + fs) && Run(d, w, es + fs) == Run(d, Run(d, w, es), fs)
    decreases |es|
  {
    if es == [] {
      assert es + fs == fs;
    } else {
      Concatenated(d, Do(w, es[0]), es[1..], fs);
      assert (es + fs)[1..] == es[1..] + fs;
    }
  }

  lemma LeadsOn(d: Discipline, w: World, w1: World, w2: World)
    requires Leads(d, w, w1) && Leads(d, w1, w2)
    ensures Leads(d, w, w2)
  {
    var es :| IsRun(d, w, es) && Run(d, w, es) == w1;
    var fs :| IsRun(d, w1, fs) && Run(d, w1, fs) == w2;
    Concatenated(d, w, es, fs);
  }

  lemma LeadsByPass(d: Discipline, w: World, at: nat, snap: seq<Node>, o1: Outcome, o2: Outcome, o3: Outcome)
    requires Enabled(w, List(w.dc, at, snap)) && Obeys(d, w, List(w.dc, at, snap))
    ensures Leads(d, w, PassWith(w, at, snap, o1, o2, o3))
  {
    hide Leads, OperateStep;
    var w1 := Do(w, List(w.dc, at, snap));
    var w2 := OperateStep(w1, o1);
    var w3 := OperateStep(w2, o2);
    LeadsByStep(d, w, List(w.dc, at, snap));
    LeadsByStep(d, w1, Operate(o1));
    LeadsByStep(d, w2, Operate(o2));
    LeadsByStep(d, w3, Operate(o3));
    LeadsOn(d, w, w1, w2);
    LeadsOn(d, w, w2, w3);
    LeadsOn(d, w, w3, OperateStep(w3, o3));
  }

  /** Later states remember every earlier one. */
  lemma {:induction false} RunKeepsPast(d: Discipline, w: World, es: seq<Event>)
    requires IsRun(d, w, es)
    ensures var w' := Run(d, w, es); |w.past| <= |w'.past| && forall i: nat | i <= |w.past| :: w'.Seen(i) == w.Seen(i)
    decreases |es|
  {
    hide Obeys;
    if es != [] {
      StepKeepsPast(w, es[0]);
      RunKeepsPast(d, Do(w, es[0]), es[1..]);
    }
  }

  lemma StepKeepsPast(w: World, e: Event)
    requires Enabled(w, e)
    ensures var w' := Do(w, e); |w.past| <= |w'.past| && forall i: nat | i <= |w.past| :: w'.Seen(i) == w.Seen(i)
  {
    hide Issue, Advance, Merge, SetReady;
  }

  lemma LeadsKeepsPast(d: Discipline, w: World, w': World)
    requires Leads(d, w, w')
    ensures |w.past| <= |w'.past| && forall i: nat | i <= |w.past| :: w'.Seen(i) == w.Seen(i)
  {
    var es :| IsRun(d, w, es) && Run(d, w, es) == w';
    RunKeepsPast(d, w, es);
  }
}
