/** Start-up composition (cmd/app/main.go): which decorators wrap the user
    and health services, in which order, under the configuration's feature
    switches, and whether the user repository is traced. */
module App {
  import opened Telemetry
  import opened UserMessages
  import opened UserDecorators
  import Configs

  /** The three feature switches that decide the composition. */
  datatype Flags = Flags(metrics: bool, tracing: bool, sentry: bool)

  /** The switches as `main` reads them from the configuration. */
  function FlagsOf(cfg: Configs.Config): Flags
  {
    Flags(cfg.metrics.enabled, cfg.tracer.enabled, cfg.sentry.enabled)
  }

  /** The layers a service gets, outermost first: Sentry, Tracing, Logging,
      Metrics, each present when its switch is on, Logging always. */
  function ComposedLayers(f: Flags): seq<Layer>
  {
    (if f.sentry then [Sentry] else [])
    + (if f.tracing then [Tracing] else [])
    + [Logging]
    + (if f.metrics then [Metrics] else [])
  }

  /** `initHealthService` and `initUserService`, which take the same steps:
      start from the bare service (`Core` stands for whichever one is
      wrapped, the health service or the user service) and wrap it step by
      step. */
  method InitService(cfg: Configs.Config) returns (s: Stack)
    ensures Layers(s) == ComposedLayers(FlagsOf(cfg))
  {
    s := Core;
    if cfg.metrics.enabled {
      s := Wrap(Metrics, s);
    }
    s := Wrap(Logging, s);
    if cfg.tracer.enabled {
      s := Wrap(Tracing, s);
    }
    if cfg.sentry.enabled {
      s := Wrap(Sentry, s);
    }
  }

  /** Repository wrapping: the user repository is traced exactly when
      tracing is on. */
  function RepositoryTraced(f: Flags): bool
  {
    f.tracing
  }

  /** How many entries of a layer list are `l`. */
  function Count(ls: seq<Layer>, l: Layer): nat
  {
    if ls == [] then 0 else (if ls[0] == l then 1 else 0) + Count(ls[1..], l)
  }

  lemma {:induction false} CountConcat(a: seq<Layer>, b: seq<Layer>, l: Layer)
    ensures Count(a + b, l) == Count(a, l) + Count(b, l)
  {
    if a != [] {
      assert (a + b)[0] == a[0];
      assert (a + b)[1..] == a[1..] + b;
      CountConcat(a[1..], b, l);
    } else {
      assert a + b == b;
    }
  }

  lemma CountSingle(x: Layer, l: Layer)
    ensures Count([x], l) == if x == l then 1 else 0
  {
    assert [x][1..] == [];
  }

  lemma {:induction false} OccurrencesFromLayers(s: Stack, l: Layer)
    ensures Occurrences(s, l) == Count(Layers(s), l)
  {
    if s.Wrap? {
      OccurrencesFromLayers(s.inner, l);
      assert Layers(s)[1..] == Layers(s.inner);
    }
  }

  /** How many layers of each kind the composition holds. */
  lemma LayerCounts(f: Flags, s: Stack)
    requires Layers(s) == ComposedLayers(f)
    ensures Occurrences(s, Logging) == 1
    ensures Occurrences(s, Metrics) == (if f.metrics then 1 else 0)
    ensures Occurrences(s, Tracing) == (if f.tracing then 1 else 0)
    ensures Occurrences(s, Sentry) == (if f.sentry then 1 else 0)
  {
    OccurrencesFromLayers(s, Logging);
    OccurrencesFromLayers(s, Metrics);
    OccurrencesFromLayers(s, Tracing);
    OccurrencesFromLayers(s, Sentry);
    ComposedCount(f, Logging);
    ComposedCount(f, Metrics);
    ComposedCount(f, Tracing);
    ComposedCount(f, Sentry);
  }

  lemma ComposedCount(f: Flags, l: Layer)
    ensures Count(ComposedLayers(f), l) ==
      (if f.sentry && l == Sentry then 1 else 0) + (if f.tracing && l == Tracing then 1 else 0)
      + (if l == Logging then 1 else 0) + (if f.metrics && l == Metrics then 1 else 0)
  {
    var a: seq<Layer> := if f.sentry then [Sentry] else [];
    var b: seq<Layer> := if f.tracing then [Tracing] else [];
    var c: seq<Layer> := if f.metrics then [Metrics] else [];
    assert ComposedLayers(f) == a + b + [Logging] + c;
    CountConcat(a + b + [Logging], c, l);
    CountConcat(a + b, [Logging], l);
    CountConcat(a, b, l);
    CountSingle(Logging, l);
    CountSingle(Sentry, l);
    CountSingle(Tracing, l);
    CountSingle(Metrics, l);
  }

  /** Where each layer sits: Sentry outermost, Tracing directly around
      Logging, Metrics directly around the core. */
  lemma LayerPositions(f: Flags, s: Stack)
    requires Layers(s) == ComposedLayers(f)
    ensures f.sentry ==> s.Wrap? && s.layer == Sentry
    ensures f.tracing ==> exists k :: 0 <= k < |Layers(s)| - 1 && Layers(s)[k] == Tracing && Layers(s)[k + 1] == Logging
    ensures Layers(s)[|Layers(s)| - 1] == (if f.metrics then Metrics else Logging)
    ensures !f.sentry && !f.tracing ==> s.Wrap? && s.layer == Logging
  {
    var ls := Layers(s);
    assert |ls| >= 1;
    assert s.Wrap? && ls[0] == s.layer;
    if f.tracing {
      var k := if f.sentry then 1 else 0;
      assert ls[k] == Tracing && ls[k + 1] == Logging;
    }
  }

  /** With tracing off, no call through a composed user service opens a
      span at all: neither a service span nor a repository span. */
  lemma NoSpansWithoutTracing(f: Flags, s: Stack, ctx: Context, req: Request, o: Outcome, caps: Capabilities)
    requires Layers(s) == ComposedLayers(f) && !f.tracing
    ensures forall e :: e in Events(s, RepositoryTraced(f), ctx, req, o, caps) ==> !e.SpanStarted? && !e.SpanFinished?
  {
    LayerCounts(f, s);
    SpansArePaired(s, RepositoryTraced(f), ctx, req, o, caps);
    var evs := Events(s, RepositoryTraced(f), ctx, req, o, caps);
    forall e | e in evs ensures !e.SpanStarted? && !e.SpanFinished?
    {
      var k :| 0 <= k < |evs| && evs[k] == e;
      if e.SpanStarted? {
        TallyMember(evs, k, Starts);
      }
      if e.SpanFinished? {
        TallyMember(evs, k, Finishes);
      }
    }
  }

  /** An element of a kind makes the tally positive. */
  lemma {:induction false} TallyMember(evs: seq<Event>, k: nat, kind: Kind)
    requires k < |evs| && IsKind(evs[k], kind)
    ensures Tally(evs, kind) > 0
  {
    TallyConcat(evs[..k], evs[k..], kind);
    assert evs[..k] + evs[k..] == evs;
    assert evs[k..] == [evs[k]] + evs[k + 1..];
    TallyConcat([evs[k]], evs[k + 1..], kind);
    TallySingle(evs[k], kind);
  }
}
