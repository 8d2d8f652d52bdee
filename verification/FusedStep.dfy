/** `backward_step` refines `backward`: the fused pass returns the same gradients, and it leaves
    the parameters and the optimizer exactly as running `backward` and then stepping every
    contributing parameter once, in tape order, would. It refuses exactly the duplicates. */
module FusedStep {
  import opened Tensors
  import opened TapeModel
  import opened Sweep
  import opened Adjoint

  datatype StepOutcome<O> = StepOutcome(ok: bool, opt: O, param: TrainableParam)

  /** `Optimizer::step_param` as a function of the optimizer state and the parameter. */
  type StepParam<!O> = (O, ParamId, TrainableParam) -> StepOutcome<O>

  datatype Fused<O> = Fused(params: Params, opt: O, stepped: set<ParamId>)

  /** One contribution in the fused pass: refuse a second one, else accumulate, step, zero. */
  function FusedContribution<O>(add: (Tensor, Tensor) -> Option<Tensor>, step: StepParam<O>, s: Fused<O>, pid: ParamId, g: Tensor): SinkResult<Fused<O>> {
    if pid !in s.params then Kept(s)
    else if pid in s.stepped then Refused(MultipleContributions, s)
    else
      var s1 := s.(stepped := s.stepped + {pid});
      match AccumulateParam(add, s.params, pid, g)
      case Refused(er, p) => Refused(er, s1.(params := p))
      case Kept(p) =>
        var o := step(s.opt, pid, p[pid]);
        if !o.ok then Refused(KernelFailed, Fused(p[pid := o.param], o.opt, s1.stepped))
        else Kept(Fused(p[pid := ZeroGrad(o.param)], o.opt, s1.stepped))
  }

  function FusedSink<O>(K: Kernels, step: StepParam<O>): Sink<Fused<O>> {
    (s: Fused<O>, pid: ParamId, g: Tensor) => FusedContribution(K.add, step, s, pid, g)
  }

  // ---------------------------------------------------------------- the traversal does not depend on the sink

  type Log = seq<(ParamId, Tensor)>

  /** A sink that only writes down what reaches it. */
  function LogSink(): Sink<Log> {
    (log: Log, pid: ParamId, g: Tensor) => Kept(log + [(pid, g)])
  }

  function Feed<P>(sink: Sink<P>, p: P, log: Log): SinkResult<P> {
    if log == [] then Kept(p)
    else
      match Feed(sink, p, log[..|log| - 1])
      case Refused(er, q) => Refused(er, q)
      case Kept(q) => sink(q, log[|log| - 1].0, log[|log| - 1].1)
  }

  lemma {:induction false} FeedConcat<P>(sink: Sink<P>, p: P, a: Log, b: Log)
    ensures Feed(sink, p, a + b) ==
            match Feed(sink, p, a) { case Refused(er, q) => Refused(er, q) case Kept(q) => Feed(sink, q, b) }
  {
    if b == [] {
      assert a + b == a;
    } else {
      FeedConcat(sink, p, a, b[..|b| - 1]);
      assert (a + b)[..|a + b| - 1] == a + b[..|b| - 1];
    }
  }

  function Routed(routes: seq<(ParamId, nat)>, gs: seq<Tensor>, n: nat): (log: Log)
    requires n <= |routes| && forall i :: 0 <= i < |routes| ==> routes[i].1 < |gs|
  {
    if n == 0 then [] else Routed(routes, gs, n - 1) + [(routes[n - 1].0, gs[routes[n - 1].1])]
  }

  lemma {:induction false} RoutingIsFeeding<P>(sink: Sink<P>, p: P, routes: seq<(ParamId, nat)>, gs: seq<Tensor>, n: nat)
    requires n <= |routes| && forall i :: 0 <= i < |routes| ==> routes[i].1 < |gs|
    ensures RouteParams(sink, p, routes, gs, n) == Feed(sink, p, Routed(routes, gs, n))
  {
    if n > 0 {
      RoutingIsFeeding(sink, p, routes, gs, n - 1);
      var log := Routed(routes, gs, n);
      assert log[..|log| - 1] == Routed(routes, gs, n - 1);
    }
  }

  lemma {:induction false} LoggingKeeps(log: Log, routes: seq<(ParamId, nat)>, gs: seq<Tensor>, n: nat)
    requires n <= |routes| && forall i :: 0 <= i < |routes| ==> routes[i].1 < |gs|
    ensures RouteParams(LogSink(), log, routes, gs, n) == Kept(log + Routed(routes, gs, n))
  {
    if n > 0 {
      LoggingKeeps(log, routes, gs, n - 1);
      var so, last := log + Routed(routes, gs, n - 1), (routes[n - 1].0, gs[routes[n - 1].1]);
      assert LogSink()(so, last.0, last.1) == Kept(so + [last]);
      assert log + Routed(routes, gs, n) == so + [last];
    } else {
      assert log + [] == log;
    }
  }

  /** The run with any sink, rebuilt from the run that only logs. */
  function Rebuild<P>(sink: Sink<P>, p: P, logged: Run<Log>): Run<P> {
    match logged
    case Running(s) =>
      (match Feed(sink, p, s.params)
       case Kept(q) => Running(SweepState(s.grads, q, s.overlay, s.active, s.replays))
       case Refused(er, q) => Failed(er, q))
    case Failed(er, log) =>
      (match Feed(sink, p, log)
       case Kept(q) => Failed(er, q)
       case Refused(er', q) => Failed(er', q))
  }

  lemma StepFactors<P>(K: Kernels, t: TapeView, sink: Sink<P>, e: TapeEntry, p: P, s: SweepState<Log>)
    requires K.Valid() && |e.inputs| == Arity(e.metadata)
    ensures var here := Rebuild(sink, p, Running(s));
            var next := Rebuild(sink, p, StepEntry(K, t, LogSink(), e, s));
            here.Running? ==> StepEntry(K, t, sink, e, here.s) == next
  {
    var here := Rebuild(sink, p, Running(s));
    if here.Running? && e.output in s.grads {
      var entered := Enter(K, t, e, s.overlay, s.active);
      if entered.Ok? {
        var gs := K.vjp(e.metadata, Operands(t, entered.value.0, e), GetAny(t, entered.value.0, e.output), s.grads[e.output]);
        if gs.Some? {
          var routes := ParamRoutes(e);
          RoutingIsFeeding(sink, here.s.params, routes, gs.value, |routes|);
          LoggingKeeps(s.params, routes, gs.value, |routes|);
          FeedConcat(sink, p, s.params, Routed(routes, gs.value, |routes|));
        }
      }
    }
  }

  /** A refused prefix stays refused whatever is logged later. */
  lemma StepOnlyExtendsLog<P>(K: Kernels, t: TapeView, sink: Sink<P>, e: TapeEntry, p: P, s: SweepState<Log>)
    requires K.Valid() && |e.inputs| == Arity(e.metadata)
    ensures var here := Rebuild(sink, p, Running(s));
            here.Failed? ==> Rebuild(sink, p, StepEntry(K, t, LogSink(), e, s)) == here
  {
    var here := Rebuild(sink, p, Running(s));
    if here.Failed? && e.output in s.grads {
      var entered := Enter(K, t, e, s.overlay, s.active);
      if entered.Ok? {
        var gs := K.vjp(e.metadata, Operands(t, entered.value.0, e), GetAny(t, entered.value.0, e.output), s.grads[e.output]);
        if gs.Some? {
          var routes := ParamRoutes(e);
          LoggingKeeps(s.params, routes, gs.value, |routes|);
          FeedConcat(sink, p, s.params, Routed(routes, gs.value, |routes|));
        }
      }
    }
  }

  lemma {:induction false} RefusedStays<P>(K: Kernels, t: TapeView, sink: Sink<P>, n: nat, p: P, s: SweepState<Log>)
    requires K.Valid() && WellFormed(t) && n <= |t.entries|
    requires Rebuild(sink, p, Running(s)).Failed?
    ensures Rebuild(sink, p, SweepDown(K, t, LogSink(), n, 0, s)) == Rebuild(sink, p, Running(s))
  {
    if n > 0 {
      StepOnlyExtendsLog(K, t, sink, t.entries[n - 1], p, s);
      var r := StepEntry(K, t, LogSink(), t.entries[n - 1], s);
      if r.Running? { RefusedStays(K, t, sink, n - 1, p, r.s); }
    }
  }

  lemma {:induction false} SweepFactors<P>(K: Kernels, t: TapeView, sink: Sink<P>, n: nat, p: P, s: SweepState<Log>)
    requires K.Valid() && WellFormed(t) && n <= |t.entries|
    requires Rebuild(sink, p, Running(s)).Running?
    ensures SweepDown(K, t, sink, n, 0, Rebuild(sink, p, Running(s)).s) ==
            Rebuild(sink, p, SweepDown(K, t, LogSink(), n, 0, s))
  {
    if n > 0 {
      var e := t.entries[n - 1];
      StepFactors(K, t, sink, e, p, s);
      var r := StepEntry(K, t, LogSink(), e, s);
      if r.Running? {
        if Rebuild(sink, p, r).Running? {
          SweepFactors(K, t, sink, n - 1, p, r.s);
        } else {
          RefusedStays(K, t, sink, n - 1, p, r.s);
        }
      }
    }
  }

  function Contributions(K: Kernels, t: TapeView, lossGrad: Tensor, lossId: TensorId): Run<Log>
    requires K.Valid() && WellFormed(t)
  {
    BackwardRun(K, t, LogSink(), lossGrad, lossId, [])
  }

  /** Gradients read only the tape, so every backward pass is one logged traversal whose log is
      then fed to its sink. */
  lemma BackwardIsTraversalThenSink<P>(K: Kernels, t: TapeView, sink: Sink<P>, lossGrad: Tensor, lossId: TensorId, p: P)
    requires K.Valid() && WellFormed(t)
    ensures BackwardRun(K, t, sink, lossGrad, lossId, p) == Rebuild(sink, p, Contributions(K, t, lossGrad, lossId))
  {
    SweepFactors(K, t, sink, |t.entries|, p, Start(lossGrad, lossId, []));
  }

  // ---------------------------------------------------------------- fused against plain

  /** The registered parameters of a log, one occurrence per contribution. */
  function Contributors(log: Log, params: Params): seq<ParamId> {
    if log == [] then []
    else
      var pid := log[|log| - 1].0;
      Contributors(log[..|log| - 1], params) + (if pid in params then [pid] else [])
  }

  predicate Distinct(ps: seq<ParamId>) {
    forall i, j :: 0 <= i < j < |ps| ==> ps[i] != ps[j]
  }

  datatype Stepped<O> = Stepped(ok: bool, params: Params, opt: O)

  /** Steps the given parameters one after the other, zeroing each gradient afterwards. */
  function StepEach<O>(step: StepParam<O>, opt: O, params: Params, ps: seq<ParamId>): Stepped<O> {
    if ps == [] then Stepped(true, params, opt)
    else
      var before := StepEach(step, opt, params, ps[..|ps| - 1]);
      var pid := ps[|ps| - 1];
      if !before.ok || pid !in before.params then before.(ok := false)
      else
        var o := step(before.opt, pid, before.params[pid]);
        if o.ok then Stepped(true, before.params[pid := ZeroGrad(o.param)], o.opt)
        else Stepped(false, before.params[pid := o.param], o.opt)
  }

  lemma {:induction false} StepEachElsewhere<O>(step: StepParam<O>, opt: O, params: Params, ps: seq<ParamId>, pid: ParamId, v: TrainableParam)
    requires pid !in ps && pid in params
    ensures var a := StepEach(step, opt, params, ps);
            && StepEach(step, opt, params[pid := v], ps) == a.(params := a.params[pid := v])
            && pid in a.params && a.params[pid] == params[pid]
  {
    if ps != [] {
      StepEachElsewhere(step, opt, params, ps[..|ps| - 1], pid, v);
      var a, b := StepEach(step, opt, params, ps), StepEach(step, opt, params[pid := v], ps);
      assert b.params == a.params[pid := v];
    } else {
      assert StepEach(step, opt, params[pid := v], ps).params == params[pid := v];
    }
  }

  lemma {:induction false} StepEachKeys<O>(step: StepParam<O>, opt: O, params: Params, ps: seq<ParamId>)
    ensures StepEach(step, opt, params, ps).params.Keys == params.Keys
  {
    if ps != [] { StepEachKeys(step, opt, params, ps[..|ps| - 1]); }
  }

  lemma {:induction false} AccumulateKeys(K: Kernels, params: Params, log: Log)
    ensures Feed(AccumulateSink(K), params, log).p.Keys == params.Keys
  {
    if log != [] { AccumulateKeys(K, params, log[..|log| - 1]); }
  }

  lemma {:induction false} ContributorsInKeys(log: Log, params: Params, ps: seq<ParamId>)
    requires ps == Contributors(log, params)
    ensures forall i :: 0 <= i < |ps| ==> ps[i] in params
  {
    if log != [] { ContributorsInKeys(log[..|log| - 1], params, Contributors(log[..|log| - 1], params)); }
  }

  /** The fused pass over a log whose contributors are distinct. */
  ghost predicate FusedMatches<O>(K: Kernels, step: StepParam<O>, params: Params, opt: O, log: Log) {
    var plain := Feed(AccumulateSink(K), params, log);
    var fused := Feed(FusedSink(K, step), Fused(params, opt, {}), log);
    var ps := Contributors(log, params);
    var each := StepEach(step, opt, plain.p, ps);
    && (fused.Kept? <==> plain.Kept? && Distinct(ps) && each.ok)
    && (fused.Kept? ==> fused.p == Fused(each.params, each.opt, set pid | pid in ps))
  }

  lemma {:induction false} FusedFeedsLikePlain<O>(K: Kernels, step: StepParam<O>, params: Params, opt: O, log: Log)
    ensures FusedMatches(K, step, params, opt, log)
  {
    if log == [] {
      assert (set pid | pid in Contributors(log, params)) == {};
    } else {
      var init := log[..|log| - 1];
      var (pid, g) := log[|log| - 1];
      FusedFeedsLikePlain(K, step, params, opt, init);
      FusedFeedsOneMore(K, step, params, opt, init, pid, g);
      assert init + [(pid, g)] == log;
    }
  }

  lemma FusedFeedsOneMore<O>(K: Kernels, step: StepParam<O>, params: Params, opt: O, init: Log, pid: ParamId, g: Tensor)
    requires FusedMatches(K, step, params, opt, init)
    ensures FusedMatches(K, step, params, opt, init + [(pid, g)])
  {
    var ps0 := Contributors(init, params);
    if pid !in params {
      FusedIgnores(K, step, params, opt, init, pid, g);
    } else if pid in ps0 {
      FusedRefuses(K, step, params, opt, init, pid, g);
    } else {
      FusedStepsNew(K, step, params, opt, init, pid, g);
    }
  }

  /** A parameter outside the registry changes nothing. */
  lemma FusedIgnores<O>(K: Kernels, step: StepParam<O>, params: Params, opt: O, init: Log, pid: ParamId, g: Tensor)
    requires FusedMatches(K, step, params, opt, init) && pid !in params
    ensures FusedMatches(K, step, params, opt, init + [(pid, g)])
  {
    var log := init + [(pid, g)];
    assert log[..|log| - 1] == init;
    AccumulateKeys(K, params, init);
    StepEachKeys(step, opt, Feed(AccumulateSink(K), params, init).p, Contributors(init, params));
    assert Feed(AccumulateSink(K), params, log) == Feed(AccumulateSink(K), params, init);
    assert Contributors(log, params) == Contributors(init, params);
  }

  /** A second contribution is refused. */
  lemma FusedRefuses<O>(K: Kernels, step: StepParam<O>, params: Params, opt: O, init: Log, pid: ParamId, g: Tensor)
    requires FusedMatches(K, step, params, opt, init) && pid in params && pid in Contributors(init, params)
    ensures FusedMatches(K, step, params, opt, init + [(pid, g)])
  {
    var log := init + [(pid, g)];
    assert log[..|log| - 1] == init;
    var ps0, ps := Contributors(init, params), Contributors(log, params);
    AccumulateKeys(K, params, init);
    StepEachKeys(step, opt, Feed(AccumulateSink(K), params, init).p, ps0);
    assert ps == ps0 + [pid];
    var i :| 0 <= i < |ps0| && ps0[i] == pid;
    assert ps[i] == ps[|ps| - 1];
    assert !Distinct(ps);
  }

  /** A first contribution is stepped at once. */
  lemma FusedStepsNew<O>(K: Kernels, step: StepParam<O>, params: Params, opt: O, init: Log, pid: ParamId, g: Tensor)
    requires FusedMatches(K, step, params, opt, init) && pid in params && pid !in Contributors(init, params)
    ensures FusedMatches(K, step, params, opt, init + [(pid, g)])
  {
    var log := init + [(pid, g)];
    assert log[..|log| - 1] == init;
    var plain0 := Feed(AccumulateSink(K), params, init);
    var ps0 := Contributors(init, params);
    AccumulateKeys(K, params, init);
    AppendDistinct(ps0, pid);
    assert Contributors(log, params) == ps0 + [pid];
    if plain0.Kept? {
      FusedStepsKept(K, step, params, opt, init, pid, g, plain0.p, ps0);
    }
  }

  /** Contributing to a parameter that no step has touched steps it with the accumulated gradient. */
  lemma ContributionSteps<O>(add: (Tensor, Tensor) -> Option<Tensor>, step: StepParam<O>, now: Params, opt: O, stepped: set<ParamId>, was: Params, pid: ParamId, g: Tensor)
    requires pid in now && pid in was && now[pid] == was[pid] && pid !in stepped
    ensures var plain := AccumulateParam(add, was, pid, g);
            var fused := FusedContribution(add, step, Fused(now, opt, stepped), pid, g);
            if plain.Refused? then fused.Refused?
            else
              && pid in plain.p && plain.p == was[pid := plain.p[pid]]
              && var o := step(opt, pid, plain.p[pid]);
                 && (fused.Kept? <==> o.ok)
                 && (o.ok ==> fused.p == Fused(now[pid := ZeroGrad(o.param)], o.opt, stepped + {pid}))
  {
    var p := AccumulateParam(add, now, pid, g);
    var plain := AccumulateParam(add, was, pid, g);
    if plain.Kept? {
      assert p.Kept? && p.p[pid] == plain.p[pid] && plain.p == was[pid := plain.p[pid]];
      var o := step(opt, pid, plain.p[pid]);
      assert p.p[pid := ZeroGrad(o.param)] == now[pid := ZeroGrad(o.param)];
    }
  }

  lemma FusedStepsKept<O>(K: Kernels, step: StepParam<O>, params: Params, opt: O, init: Log, pid: ParamId, g: Tensor, was: Params, ps0: seq<ParamId>)
    requires FusedMatches(K, step, params, opt, init) && pid in params && pid !in ps0
    requires Feed(AccumulateSink(K), params, init) == Kept(was) && ps0 == Contributors(init, params) && was.Keys == params.Keys
    requires Contributors(init + [(pid, g)], params) == ps0 + [pid] && (Distinct(ps0 + [pid]) <==> Distinct(ps0))
    ensures FusedMatches(K, step, params, opt, init + [(pid, g)])
  {
    var log := init + [(pid, g)];
    assert log[..|log| - 1] == init;
    var plain := AccumulateParam(K.add, was, pid, g);
    assert Feed(AccumulateSink(K), params, log) == plain;
    var a := StepEach(step, opt, was, ps0);
    StepEachElsewhere(step, opt, was, ps0, pid, was[pid]);
    var start := Fused(params, opt, {});
    var before := Feed(FusedSink(K, step), start, init);
    if before.Kept? {
      assert before.p == Fused(a.params, a.opt, set q | q in ps0);
      ContributionSteps(K.add, step, a.params, a.opt, before.p.stepped, was, pid, g);
      assert Feed(FusedSink(K, step), start, log) == FusedContribution(K.add, step, before.p, pid, g);
      assert (set q | q in ps0 + [pid]) == (set q | q in ps0) + {pid};
    } else {
      assert Feed(FusedSink(K, step), start, log).Refused?;
    }
    if plain.Kept? { LastStep(step, opt, was, ps0, pid, plain.p[pid]); }
  }

  /** Stepping one more parameter, whose gradient arrived last. */
  lemma LastStep<O>(step: StepParam<O>, opt: O, was: Params, ps: seq<ParamId>, pid: ParamId, v: TrainableParam)
    requires pid in was && pid !in ps
    ensures var a, b := StepEach(step, opt, was, ps), StepEach(step, opt, was[pid := v], ps + [pid]);
            && a.params.Keys == was.Keys
            && if !a.ok then !b.ok
               else
                 var o := step(a.opt, pid, v);
                 b == Stepped(o.ok, a.params[pid := if o.ok then ZeroGrad(o.param) else o.param], o.opt)
  {
    StepEachKeys(step, opt, was, ps);
    StepEachElsewhere(step, opt, was, ps, pid, v);
    assert (ps + [pid])[..|ps|] == ps;
    var before := StepEach(step, opt, was[pid := v], ps);
    if before.ok {
      var o := step(before.opt, pid, v);
      var p := if o.ok then ZeroGrad(o.param) else o.param;
      assert before.params[pid := p] == StepEach(step, opt, was, ps).params[pid := p];
    }
  }

  lemma AppendDistinct(ps: seq<ParamId>, pid: ParamId)
    requires pid !in ps
    ensures Distinct(ps + [pid]) <==> Distinct(ps)
  {
    var qs := ps + [pid];
    if Distinct(qs) {
      forall i, j | 0 <= i < j < |ps| ensures ps[i] != ps[j] {
        assert qs[i] != qs[j];
      }
    }
  }

  /** Main theorem. Whenever plain `backward` succeeds, `backward_step` succeeds exactly when no
      registered parameter received two contributions and every optimizer step succeeds; then
      the gradients are the same, and parameters and optimizer are those of stepping each
      contributor once on the gradient that `backward` accumulated. A duplicate is refused
      with its own error unless an optimizer step failed earlier. */
  lemma BackwardStepRefinesBackward<O>(K: Kernels, t: TapeView, step: StepParam<O>, lossGrad: Tensor, lossId: TensorId, params: Params, opt: O)
    requires K.Valid() && WellFormed(t)
    ensures var log := Contributions(K, t, lossGrad, lossId);
            var plain := BackwardRun(K, t, AccumulateSink(K), lossGrad, lossId, params);
            var fused := BackwardRun(K, t, FusedSink(K, step), lossGrad, lossId, Fused(params, opt, {}));
            && (fused.Running? ==> plain.Running?)
            && (plain.Running? ==>
                  && log.Running?
                  && var ps := Contributors(log.s.params, params);
                     var each := StepEach(step, opt, plain.s.params, ps);
                     && (fused.Running? <==> Distinct(ps) && each.ok)
                     && (fused.Running? ==>
                           && fused.s.grads == plain.s.grads
                           && fused.s.params.params == each.params
                           && fused.s.params.opt == each.opt))
  {
    BackwardIsTraversalThenSink(K, t, AccumulateSink(K), lossGrad, lossId, params);
    BackwardIsTraversalThenSink(K, t, FusedSink(K, step), lossGrad, lossId, Fused(params, opt, {}));
    var log := Contributions(K, t, lossGrad, lossId);
    if log.Running? { FusedFeedsLikePlain(K, step, params, opt, log.s.params); }
  }

  lemma {:induction false} RefusalIsDuplicate<O>(K: Kernels, step: StepParam<O>, params: Params, opt: O, log: Log)
    requires forall o, pid, p :: step(o, pid, p).ok
    ensures var fused := Feed(FusedSink(K, step), Fused(params, opt, {}), log);
            fused.Refused? && Feed(AccumulateSink(K), params, log).Kept? ==> fused.err == MultipleContributions
  {
    if log != [] {
      var init := log[..|log| - 1];
      RefusalIsDuplicate(K, step, params, opt, init);
      FusedFeedsLikePlain(K, step, params, opt, init);
      var fused := Feed(FusedSink(K, step), Fused(params, opt, {}), init);
      var plain := Feed(AccumulateSink(K), params, init);
      var (pid, g) := log[|log| - 1];
      var ps := Contributors(init, params);
      AccumulateKeys(K, params, init);
      StepEachKeys(step, opt, plain.p, ps);
      if fused.Kept? && pid in params && pid !in ps {
        StepEachElsewhere(step, opt, plain.p, ps, pid, plain.p[pid]);
      }
    }
  }

  /** With an optimizer that does not fail, the refusal always names the duplicate. */
  lemma RefusesExactlyDuplicates<O>(K: Kernels, t: TapeView, step: StepParam<O>, lossGrad: Tensor, lossId: TensorId, params: Params, opt: O)
    requires K.Valid() && WellFormed(t)
    requires forall o, pid, p :: step(o, pid, p).ok
    requires BackwardRun(K, t, AccumulateSink(K), lossGrad, lossId, params).Running?
    ensures Contributions(K, t, lossGrad, lossId).Running?
    ensures var fused := BackwardRun(K, t, FusedSink(K, step), lossGrad, lossId, Fused(params, opt, {}));
            && (fused.Failed? <==> !Distinct(Contributors(Contributions(K, t, lossGrad, lossId).s.params, params)))
            && (fused.Failed? ==> fused.err == MultipleContributions)
  {
    BackwardStepRefinesBackward(K, t, step, lossGrad, lossId, params, opt);
    BackwardIsTraversalThenSink(K, t, AccumulateSink(K), lossGrad, lossId, params);
    BackwardIsTraversalThenSink(K, t, FusedSink(K, step), lossGrad, lossId, Fused(params, opt, {}));
    var log := Contributions(K, t, lossGrad, lossId).s.params;
    RefusalIsDuplicate(K, step, params, opt, log);
    AccumulateKeys(K, params, log);
    ContributorsInKeys(log, params, Contributors(log, params));
    AllOk(step, opt, Feed(AccumulateSink(K), params, log).p, Contributors(log, params));
  }

  lemma {:induction false} AllOk<O>(step: StepParam<O>, opt: O, params: Params, ps: seq<ParamId>)
    requires forall o, pid, p :: step(o, pid, p).ok
    requires forall i :: 0 <= i < |ps| ==> ps[i] in params
    ensures StepEach(step, opt, params, ps).ok
  {
    if ps != [] {
      AllOk(step, opt, params, ps[..|ps| - 1]);
      StepEachKeys(step, opt, params, ps[..|ps| - 1]);
    }
  }
}
