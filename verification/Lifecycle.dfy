/**
 The life of a DeviceConfig and its Module: the finalizer is set before the Module is made and removed after it is gone.
 */
module Lifecycle {
  import opened Nodes

  const FINALIZER := "intel.node.kubernetes.io/deviceconfig-finalizer"

  /** The DeviceConfig object as the API server stores it, as far as its life is concerned. */
  datatype Config = Config(finalizers: seq<string>, deleting: bool) {
    predicate Guarded() { FINALIZER in finalizers }
  }

  function WithoutFinalizer(fs: seq<string>): (r: seq<string>)
    ensures FINALIZER !in r
    ensures forall f :: f in r <==> f in fs && f != FINALIZER
  {
    if fs == [] then []
    else
      var last := fs[|fs| - 1];
      assert fs == fs[..|fs| - 1] + [last];
      WithoutFinalizer(fs[..|fs| - 1]) + (if last == FINALIZER then [] else [last])
  }

  // ----- The program of one reconcile -----

  datatype Call =
    | PatchFinalizers(old': seq<string>, new': seq<string>)
    | EnsureRule
    | EnsureModule
    | EnsureManager
    | RollUpgrade
    | GetModule
    | DeleteModule

  datatype Answer = Okay | NotFound | Failed

  datatype Stage =
    | Ended(ok: bool)
    | Guarding(c: Config)
    | MakingRule
    | MakingModule
    | MakingManager
    | Rolling
    | Looking(c: Config)
    | Unguarding(c: Config)
    | Deleting

  /** A reconcile works on the copy it was given. */
  function Start(c: Config): Stage {
    if c.deleting then Looking(c) else if c.Guarded() then MakingRule else Guarding(c)
  }

  function CallOf(s: Stage): Call
    requires !s.Ended?
  {
    match s
    case Guarding(c) => PatchFinalizers(c.finalizers, c.finalizers + [FINALIZER])
    case MakingRule => EnsureRule
    case MakingModule => EnsureModule
    case MakingManager => EnsureManager
    case Rolling => RollUpgrade
    case Looking(_) => GetModule
    case Unguarding(c) => PatchFinalizers(c.finalizers, WithoutFinalizer(c.finalizers))
    case Deleting => DeleteModule
  }

  function Next(s: Stage, a: Answer): Stage
    requires !s.Ended?
  {
    if s.Looking? && a == NotFound then Unguarding(s.c)
    else if a != Okay then Ended(false)
    else
      match s
      case Guarding(_) => MakingRule
      case MakingRule => MakingModule
      case MakingModule => MakingManager
      case MakingManager => Rolling
      case Looking(_) => Deleting
      case _ => Ended(true)
  }

  function StepsLeft(s: Stage): nat {
    match s
    case Ended(_) => 0
    case Guarding(_) => 5
    case MakingRule => 4
    case MakingModule => 3
    case MakingManager => 2
    case Looking(_) => 2
    case _ => 1
  }

  function FirstAnswer(answers: seq<Answer>): Answer { if answers == [] then Failed else answers[0] }

  function LaterAnswers(answers: seq<Answer>): seq<Answer> { if answers == [] then [] else answers[1..] }

  /** The calls a reconcile makes from s on, and whether it succeeds. */
  function Calls(s: Stage, answers: seq<Answer>): (seq<Call>, bool)
    decreases StepsLeft(s)
  {
    if s.Ended? then ([], s.ok)
    else
      var rest := Calls(Next(s, FirstAnswer(answers)), LaterAnswers(answers));
      ([CallOf(s)] + rest.0, rest.1)
  }

  // ----- The reconciler as it runs -----

  class ConfigObject {
    var finalizers: seq<string>
    var deleting: bool

    function Value(): Config
      reads this
    {
      Config(finalizers, deleting)
    }

    constructor (c: Config)
      ensures Value() == c
    {
      finalizers, deleting := c.finalizers, c.deleting;
    }
  }

  /** answers holds what the API server and the other helpers will answer; no answer counts as a failure. */
  class Client {
    var answers: seq<Answer>
    var calls: seq<Call>

    constructor (answers: seq<Answer>)
      ensures this.answers == answers && calls == []
    {
      this.answers, calls := answers, [];
    }

    method Send(c: Call) returns (a: Answer)
      modifies this
      ensures calls == old(calls) + [c] && a == FirstAnswer(old(answers)) && answers == LaterAnswers(old(answers))
    {
      a := FirstAnswer(answers);
      answers := LaterAnswers(answers);
      calls := calls + [c];
    }
  }

  class Reconciler {
    const client: Client

    constructor (client: Client)
      ensures this.client == client
    {
      this.client := client;
    }

    method SetFinalizer(dc: ConfigObject) returns (ok: bool)
      modifies client, dc`finalizers
      ensures old(dc.Value()).Guarded() ==>
                && ok && dc.Value() == old(dc.Value())
                && client.calls == old(client.calls) && client.answers == old(client.answers)
      ensures !old(dc.Value()).Guarded() ==>
                && dc.finalizers == old(dc.finalizers) + ["intel.node.kubernetes.io/deviceconfig-finalizer"]
                && client.calls == old(client.calls + [PatchFinalizers(dc.finalizers, dc.finalizers + [FINALIZER])])
                && client.answers == LaterAnswers(old(client.answers))
                && ok == (FirstAnswer(old(client.answers)) == Okay)
    {
      if FINALIZER in dc.finalizers {
        return true;
      }
      var copy := new ConfigObject(dc.Value());
      dc.finalizers := dc.finalizers + [FINALIZER];
      var a := client.Send(PatchFinalizers(copy.finalizers, dc.finalizers));
      return a == Okay;
    }

    /** A missing Module lets the finalizer go; a present one is deleted, and the finalizer stays. */
    method FinalizeDeviceConfig(dc: ConfigObject) returns (ok: bool)
      modifies client, dc`finalizers
      ensures (client.calls, ok) == old(Ending(client.calls, Looking(dc.Value()), client.answers))
    {
      hide Ending;
      StepEnds(client.calls, Looking(dc.Value()), client.answers);
      var a := client.Send(GetModule);
      if a != Okay {
        if a == NotFound {
          StepEnds(client.calls, Unguarding(dc.Value()), client.answers);
          var copy := new ConfigObject(dc.Value());
          dc.finalizers := WithoutFinalizer(dc.finalizers);
          a := client.Send(PatchFinalizers(copy.finalizers, dc.finalizers));
          return a == Okay;
        }
        return false;
      }
      StepEnds(client.calls, Deleting, client.answers);
      a := client.Send(DeleteModule);
      return a == Okay;
    }

    method Reconcile(dc: ConfigObject) returns (ok: bool)
      modifies client, dc`finalizers
      ensures (client.calls, ok) == old(Ending(client.calls, Start(dc.Value()), client.answers))
    {
      hide Ending, WithoutFinalizer;
      if dc.deleting {
        ok := FinalizeDeviceConfig(dc);
        return;
      }
      StepEnds(client.calls, Start(dc.Value()), client.answers);
      ok := SetFinalizer(dc);
      if !ok {
        return;
      }
      StepEnds(client.calls, MakingRule, client.answers);
      var a := client.Send(EnsureRule);
      if a != Okay {
        return false;
      }
      StepEnds(client.calls, MakingModule, client.answers);
      a := client.Send(EnsureModule);
      if a != Okay {
        return false;
      }
      StepEnds(client.calls, MakingManager, client.answers);
      a := client.Send(EnsureManager);
      if a != Okay {
        return false;
      }
      StepEnds(client.calls, Rolling, client.answers);
      a := client.Send(RollUpgrade);
      return a == Okay;
    }
  }

  /** All calls there will have been when a reconcile stands at s after the calls done, and whether it succeeds. */
  ghost function Ending(done: seq<Call>, s: Stage, answers: seq<Answer>): (seq<Call>, bool) {
    var r := Calls(s, answers);
    (done + r.0, r.1)
  }

  lemma StepEnds(done: seq<Call>, s: Stage, answers: seq<Answer>)
    requires !s.Ended?
    ensures var n := Next(s, FirstAnswer(answers));
            Ending(done, s, answers)
            == if n.Ended? then (done + [CallOf(s)], n.ok) else Ending(done + [CallOf(s)], n, LaterAnswers(answers))
  {
    var n := Next(s, FirstAnswer(answers));
    var rest := Calls(n, LaterAnswers(answers));
    assert Calls(s, answers) == ([CallOf(s)] + rest.0, rest.1);
    assert done + ([CallOf(s)] + rest.0) == done + [CallOf(s)] + rest.0;
    if n.Ended? {
      assert rest == ([], n.ok);
      assert done + [CallOf(s)] + [] == done + [CallOf(s)];
    }
  }

  // ----- The program in plain terms -----

  /** How many of n calls are made: all up to the first that is not answered Okay. */
  function Made(answers: seq<Answer>, n: nat): (r: nat)
    ensures r <= n
    decreases n
  {
    if n == 0 then 0 else if FirstAnswer(answers) != Okay then 1 else 1 + Made(LaterAnswers(answers), n - 1)
  }

  predicate AllOkay(answers: seq<Answer>, n: nat) { n <= |answers| && forall i | 0 <= i < n :: answers[i] == Okay }

  /** The calls from a stage on, all the way to success. */
  function Course(s: Stage): (r: seq<Call>)
    requires !s.Looking?
    decreases StepsLeft(s)
  {
    if s.Ended? then [] else [CallOf(s)] + Course(Next(s, Okay))
  }

  lemma {:induction false} CallsFollowCourse(s: Stage, answers: seq<Answer>)
    requires !s.Looking? && !s.Ended?
    ensures Calls(s, answers) == (Course(s)[..Made(answers, |Course(s)|)], AllOkay(answers, |Course(s)|))
    decreases StepsLeft(s)
  {
    var a, rest := FirstAnswer(answers), LaterAnswers(answers);
    var n := Next(s, a);
    CallsOfEnded(n, rest);
    assert Calls(s, answers) == ([CallOf(s)] + Calls(n, rest).0, Calls(n, rest).1);
    if a == Okay {
      OkayLater(answers, |Course(s)|);
      var k := Made(rest, |Course(n)|);
      assert Course(s)[..1 + k] == [CallOf(s)] + Course(n)[..k];
      if !n.Ended? { CallsFollowCourse(n, rest); }
    } else {
      assert n == Ended(false);
      assert Course(s)[..1] == [CallOf(s)];
      assert [CallOf(s)] + [] == [CallOf(s)];
    }
  }

  lemma CallsOfEnded(s: Stage, answers: seq<Answer>)
    ensures s.Ended? ==> Calls(s, answers) == ([], s.ok)
  {
  }

  lemma OkayLater(answers: seq<Answer>, n: nat)
    requires n > 0 && FirstAnswer(answers) == Okay
    ensures AllOkay(answers, n) <==> AllOkay(LaterAnswers(answers), n - 1)
  {
    var rest := LaterAnswers(answers);
    assert forall i | 0 <= i < |rest| :: rest[i] == answers[i + 1];
    if AllOkay(rest, n - 1) { assert forall i | 0 < i < n :: answers[i] == rest[i - 1]; }
  }

  /** A reconcile of a DeviceConfig that is not being deleted guards it, and then makes rule, Module and manager and
      rolls the upgrade, in this order; the first call that fails is its last; and it succeeds exactly if none
      fails. */
  lemma LiveReconcileInFull(c: Config, answers: seq<Answer>)
    requires !c.deleting
    ensures var fs := c.finalizers;
            var guard := if FINALIZER in fs then [] else [PatchFinalizers(fs, fs + [FINALIZER])];
            var all := guard + [EnsureRule, EnsureModule, EnsureManager, RollUpgrade];
            Calls(Start(c), answers) == (all[..Made(answers, |all|)], AllOkay(answers, |all|))
  {
    CallsFollowCourse(Start(c), answers);
    CourseOfRule();
    if c.Guarded() {
      assert [] + Course(MakingRule) == Course(MakingRule);
    } else {
      assert Course(Guarding(c)) == [CallOf(Guarding(c))] + Course(MakingRule);
    }
  }

  lemma CourseOfRule()
    ensures Course(MakingRule) == [EnsureRule, EnsureModule, EnsureManager, RollUpgrade]
  {
    assert Course(Ended(true)) == [];
    assert Course(Rolling) == [RollUpgrade];
    assert Course(MakingManager) == [EnsureManager] + Course(Rolling);
    assert Course(MakingModule) == [EnsureModule] + Course(MakingManager);
    assert Course(MakingRule) == [EnsureRule] + Course(MakingModule);
  }

  /** A reconcile of one that is being deleted looks its Module up, deletes it if it is there, takes the finalizer
      off if it is not, and fails if it cannot tell. */
  lemma DyingReconcileInFull(c: Config, answers: seq<Answer>)
    requires c.deleting
    ensures var later := LaterAnswers(answers);
            Calls(Start(c), answers)
            == match FirstAnswer(answers)
               case Okay => ([GetModule, DeleteModule], FirstAnswer(later) == Okay)
               case NotFound => ([GetModule, PatchFinalizers(c.finalizers, WithoutFinalizer(c.finalizers))],
                                 FirstAnswer(later) == Okay)
               case Failed => ([GetModule], false)
  {
    var later := LaterAnswers(answers);
    var n := Next(Looking(c), FirstAnswer(answers));
    CallsOfEnded(n, later);
    assert Calls(Looking(c), answers) == ([GetModule] + Calls(n, later).0, Calls(n, later).1);
    if !n.Ended? {
      var last := Next(n, FirstAnswer(later));
      CallsOfEnded(last, LaterAnswers(later));
      assert [CallOf(n)] + [] == [CallOf(n)];
      assert Calls(n, later) == ([CallOf(n)], last.ok);
      assert [GetModule] + [CallOf(n)] == [GetModule, CallOf(n)];
    } else {
      assert [GetModule] + [] == [GetModule];
    }
  }

  /** All other entries stay, in order. */
  lemma {:induction false} WithoutFinalizerAppend(a: seq<string>, b: seq<string>)
    ensures WithoutFinalizer(a + b) == WithoutFinalizer(a) + WithoutFinalizer(b)
    decreases |b|
  {
    if b == [] {
      assert a + b == a;
    } else {
      assert (a + b)[..|a + b| - 1] == a + b[..|b| - 1];
      WithoutFinalizerAppend(a, b[..|b| - 1]);
    }
  }

  lemma WithoutFinalizerOne(f: string)
    ensures WithoutFinalizer([f]) == if f == FINALIZER then [] else [f]
  {
    assert [f][..0] == [];
  }

  // ----- The life cycle as a state machine -----

  /** config is the stored DeviceConfig; module_ says whether the Module is there and whether it is being deleted;
      past holds what both were before. */
  datatype World = World(
    config: Option<Config>, module_: Option<bool>, stage: Stage, past: seq<(Option<Config>, Option<bool>)>)
  {
    function Seen(at: nat): (Option<Config>, Option<bool>)
      requires at <= |past|
    {
      if at == |past| then (config, module_) else past[at]
    }
  }

  datatype Event =
    | Begin(at: nat)                  // a reconcile is given the DeviceConfig as of now or of an earlier state
    | Step(o: Outcome, at: nat)       // its next call, which may be lost or reported as failed; a read may be old
    | Restart
    | Create(finalizers: seq<string>)
    | Delete                          // the user asks for deletion
    | Others(finalizers: seq<string>) // others edit the list
    | Release                         // KMM lets a Module that is being deleted go

  /** An object being deleted goes once no finalizer is left. */
  function Stored(c: Config): Option<Config> { if c.deleting && c.finalizers == [] then None else Some(c) }

  /** The server's side of a finalizer patch: it carries the whole list, an empty patch changes nothing, and an object
      being deleted accepts no new entry. */
  function Patched(c: Option<Config>, old': seq<string>, new': seq<string>): (Option<Config>, Answer) {
    if c.None? then (None, NotFound)
    else if old' == new' then (c, Okay)
    else if c.value.deleting && exists f | f in new' :: f !in c.value.finalizers then (c, Failed)
    else (Stored(c.value.(finalizers := new')), Okay)
  }

  /** What a call does when it reaches the server, and what it answers, if the Module is read as seen. */
  function Effect(w: World, c: Call, seen: Option<bool>): (World, Answer) {
    match c
    case PatchFinalizers(old', new') => var r := Patched(w.config, old', new'); (w.(config := r.0), r.1)
    case EnsureModule =>
      if seen.Some? then (w, Okay) else if w.module_.Some? then (w, Failed) else (w.(module_ := Some(false)), Okay)
    case GetModule => (w, if seen.Some? then Okay else NotFound)
    case DeleteModule => if w.module_.Some? then (w.(module_ := Some(true)), Okay) else (w, NotFound)
    case _ => (w, Okay)
  }

  predicate Enabled(w: World, e: Event) {
    match e
    case Begin(at) => w.stage.Ended? && at <= |w.past| && w.Seen(at).0.Some?
    case Step(_, at) => at <= |w.past|
    case Create(_) => w.config.None?
    case Delete => w.config.Some?
    case Others(fs) =>
      w.config.Some? && (w.config.value.deleting ==> forall f | f in fs :: f in w.config.value.finalizers)
    case Release => w.module_ == Some(true)
    case Restart => true
  }

  function AnswerTo(w: World, o: Outcome, at: nat): Answer
    requires !w.stage.Ended? && at <= |w.past|
  {
    if o.Applied? then Effect(w, CallOf(w.stage), w.Seen(at).1).1 else Failed
  }

  function Act(w: World, e: Event): World
    requires Enabled(w, e)
  {
    match e
    case Begin(at) => w.(stage := Start(w.Seen(at).0.value))
    case Step(o, at) =>
      if w.stage.Ended? then w
      else
        var w' := if o.Lost? then w else Effect(w, CallOf(w.stage), w.Seen(at).1).0;
        w'.(stage := Next(w.stage, AnswerTo(w, o, at)))
    case Restart => w.(stage := Ended(false))
    case Create(fs) => w.(config := Some(Config(fs, false)))
    case Delete => w.(config := Stored(w.config.value.(deleting := true)))
    case Others(fs) => w.(config := Stored(w.config.value.(finalizers := fs)))
    case Release => w.(module_ := None)
  }

  function Do(w: World, e: Event): World
    requires Enabled(w, e)
  {
    Act(w, e).(past := w.past + [(w.config, w.module_)])
  }

  /** Every read is current, and nobody else touches the operator's finalizer. */
  predicate Current(w: World, e: Event)
    requires Enabled(w, e)
  {
    match e
    case Begin(at) => at == |w.past|
    case Step(_, at) => at == |w.past|
    case Others(fs) => FINALIZER in fs <==> w.config.value.Guarded()
    case _ => true
  }

  predicate IsRun(w: World, es: seq<Event>)
    decreases |es|
  {
    es == [] || (Enabled(w, es[0]) && Current(w, es[0]) && IsRun(Do(w, es[0]), es[1..]))
  }

  function Run(w: World, es: seq<Event>): World
    requires IsRun(w, es)
    decreases |es|
  {
    if es == [] then w else Run(Do(w, es[0]), es[1..])
  }

  /** The calls the reconcile under way makes in the course of a run, and the answers it gets. */
  function Exchange(w: World, es: seq<Event>): (seq<Call>, seq<Answer>)
    requires IsRun(w, es)
    decreases |es|
  {
    if es == [] then ([], [])
    else
      var t := Exchange(Do(w, es[0]), es[1..]);
      if es[0].Step? && !w.stage.Ended? then ([CallOf(w.stage)] + t.0, [AnswerTo(w, es[0].o, es[0].at)] + t.1) else t
  }

  /** Neither a restart nor, once it has ended, another reconcile. */
  predicate OfOneReconcile(es: seq<Event>) { forall e | e in es :: !e.Restart? && !e.Begin? }

  /** However other events come between its calls: on the answers it gets, the program makes the calls a reconcile
      makes and ends with its result. */
  lemma {:induction false} ReconcilesRunTheProgram(w: World, es: seq<Event>)
    requires IsRun(w, es) && OfOneReconcile(es) && Run(w, es).stage.Ended?
    ensures var x := Exchange(w, es); Calls(w.stage, x.1) == (x.0, Run(w, es).stage.ok)
    decreases |es|
  {
    if es != [] {
      var x := Exchange(Do(w, es[0]), es[1..]);
      assert es[0] in es && forall f | f in es[1..] :: f in es;
      ReconcilesRunTheProgram(Do(w, es[0]), es[1..]);
      if es[0].Step? && !w.stage.Ended? { assert LaterAnswers(Exchange(w, es).1) == x.1; }
    }
  }

  predicate ConfigGuarded(w: World) { w.config.Some? && w.config.value.Guarded() }

  /** A Module has a guarded DeviceConfig; a reconcile that has guarded it finds it still guarded when it makes the
      Module; and one that found no Module lets go of nothing. */
  predicate Safe(w: World) {
    && (w.module_.Some? ==> ConfigGuarded(w))
    && (w.stage.MakingRule? || w.stage.MakingModule? ==> ConfigGuarded(w))
    && (w.stage.Unguarding? ==> w.module_.None?)
  }

  /** No reconcile starts from a copy that was guarded while the stored DeviceConfig is not; no lookup misses a
      Module that is there; and nobody else takes the finalizer off beside a Module or before one is made. */
  predicate Proper(w: World, e: Event)
    requires Enabled(w, e)
  {
    match e
    case Begin(at) => Start(w.Seen(at).0.value).MakingRule? ==> ConfigGuarded(w)
    case Step(o, at) => w.stage.Looking? && o.Applied? && w.Seen(at).1.None? ==> w.module_.None?
    case Others(fs) => w.module_.Some? || w.stage.MakingRule? || w.stage.MakingModule? ==> FINALIZER in fs
    case _ => true
  }

  /** With reads of any age, an event keeps this state of affairs exactly when it is proper. */
  lemma StepKeepsSafeExactly(w: World, e: Event)
    requires Safe(w) && Enabled(w, e)
    ensures Safe(Do(w, e)) <==> Proper(w, e)
  {
    if e.Step? && w.stage.Guarding? {
      var new' := w.stage.c.finalizers + [FINALIZER];
      assert FINALIZER in new' && |new'| > |w.stage.c.finalizers|;
    }
  }

  lemma CurrentIsProper(w: World, e: Event)
    requires Safe(w) && Enabled(w, e) && Current(w, e)
    ensures Proper(w, e)
  {
  }

  /** A lookup in a cache that has not seen the Module yet: the finalizer goes, and the Module stays behind. */
  lemma StaleLookupOrphansModule(w: World, at: nat)
    requires Safe(w) && w.stage.Ended? && w.module_.Some? && w.config.value.deleting
    requires at < |w.past| && w.past[at].1.None?
    ensures var w1 := Do(w, Begin(|w.past|));
            var w2 := Do(w1, Step(Applied, at));
            var w3 := Do(w2, Step(Applied, |w2.past|));
            && Safe(w1) && !Proper(w1, Step(Applied, at))
            && w3.stage == Ended(true) && w3.module_.Some? && !ConfigGuarded(w3)
  {
    var fs := w.config.value.finalizers;
    assert FINALIZER in fs && FINALIZER !in WithoutFinalizer(fs);
  }

  /** In every interleaving of the reconcile's calls with user, KMM and other writers, a Module implies a DeviceConfig
      that still carries the finalizer. */
  lemma {:induction false} ModuleImpliesGuardedConfig(w: World, es: seq<Event>)
    requires Safe(w) && IsRun(w, es)
    ensures Safe(Run(w, es)) && (Run(w, es).module_.Some? ==> ConfigGuarded(Run(w, es)))
    decreases |es|
  {
    if es != [] {
      CurrentIsProper(w, es[0]);
      StepKeepsSafeExactly(w, es[0]);
      ModuleImpliesGuardedConfig(Do(w, es[0]), es[1..]);
    }
  }

  // ----- Deletion comes to an end -----

  /** Distance to a DeviceConfig without our finalizer. */
  function Distance(w: World): nat {
    if !ConfigGuarded(w) then 0
    else match w.module_
      case None => 1
      case Some(true) => 2
      case Some(false) => 3
  }

  /** The DeviceConfig is being deleted, and no reconcile that still takes it for live is under way. */
  predicate Dying(w: World) {
    && w.config.Some? && w.config.value.deleting
    && (w.stage.Ended? || w.stage.Looking? || w.stage.Unguarding? || w.stage.Deleting?)
  }

  /** Whatever fails in between and whoever acts, a dying DeviceConfig gets no further from its end. */
  lemma NoStepMovesAway(w: World, e: Event)
    requires Safe(w) && Dying(w) && Enabled(w, e) && Current(w, e)
    ensures var w' := Do(w, e); w'.config.None? || (Dying(w') && Distance(w') <= Distance(w))
  {
  }

  /** A successful reconcile of a dying DeviceConfig. */
  function LastPass(w: World): World
    requires w.stage.Ended? && Dying(w)
  {
    var w1 := Do(w, Begin(|w.past|));
    var w2 := Do(w1, Step(Applied, |w1.past|));
    Do(w2, Step(Applied, |w2.past|))
  }

  /** It takes one step of the way, unless it has to wait for KMM. */
  lemma PassMovesCloser(w: World)
    requires Safe(w) && w.stage.Ended? && Dying(w)
    ensures var w' := LastPass(w);
            && w'.stage == Ended(true)
            && (w.module_.None? && ConfigGuarded(w) ==> Distance(w') == 0)
            && (w.module_ == Some(false) ==> w'.config == w.config && w'.module_ == Some(true))
            && (w.module_ == Some(true) ==> w'.config == w.config && w'.module_ == w.module_)
  {
    var c := w.config.value;
    if w.module_.None? && ConfigGuarded(w) {
      assert FINALIZER in c.finalizers && FINALIZER !in WithoutFinalizer(c.finalizers);
    }
  }

  /** A successful reconcile, or KMM letting a deleted Module go. */
  datatype Move = Pass | LetGo

  predicate Possible(w: World, m: Move) {
    match m
    case Pass => w.stage.Ended? && Dying(w) && ConfigGuarded(w) && w.module_ != Some(true)
    case LetGo => w.module_ == Some(true)
  }

  function Moved(w: World, m: Move): World
    requires Possible(w, m)
  {
    match m
    case Pass => LastPass(w)
    case LetGo => Do(w, Release)
  }

  predicate IsPlay(w: World, moves: seq<Move>)
    decreases |moves|
  {
    moves == [] || (Possible(w, moves[0]) && IsPlay(Moved(w, moves[0]), moves[1..]))
  }

  function Played(w: World, moves: seq<Move>): World
    requires IsPlay(w, moves)
    decreases |moves|
  {
    if moves == [] then w else Played(Moved(w, moves[0]), moves[1..])
  }

  /** At most two successful reconciles and one release are possible, and when nothing is possible any more the
      finalizer is off. */
  lemma {:induction false} DeletionFinishes(w: World, moves: seq<Move>)
    requires Safe(w) && w.stage.Ended? && Dying(w) && IsPlay(w, moves)
    ensures |moves| + Distance(Played(w, moves)) <= Distance(w) <= 3
    ensures (forall m :: !Possible(Played(w, moves), m)) ==> !ConfigGuarded(Played(w, moves))
    decreases |moves|
  {
    if moves != [] {
      var m, w' := moves[0], Moved(w, moves[0]);
      match m {
        case Pass => PassMovesCloser(w);
        case LetGo =>
      }
      if Distance(w') == 0 {
        assert forall k :: !Possible(w', k);
        assert moves[1..] == [];
      } else {
        PassKeepsDying(w, m);
        DeletionFinishes(w', moves[1..]);
      }
    } else if ConfigGuarded(w) {
      assert Possible(w, if w.module_ == Some(true) then LetGo else Pass);
    }
  }

  lemma PassKeepsDying(w: World, m: Move)
    requires Safe(w) && w.stage.Ended? && Dying(w) && Possible(w, m) && Distance(Moved(w, m)) > 0
    ensures Safe(Moved(w, m)) && Moved(w, m).stage.Ended? && Dying(Moved(w, m))
  {
    if m.Pass? { PassMovesCloser(w); }
  }
}
