/** Server assembly (internal/server/server.go): `NewServer` applies its
    functional options in order; `SetHandler` mounts every HTTP handler
    under "/" + its name, in descending order of name, so that a name
    registers before every name that is a proper prefix of it; `SetGRPC`
    joins the gRPC services in order into a server built with the
    configured timeout. Listeners, serving and signals are not modelled. */
module Servers {
  import opened Base
  import opened Errors
  import Configs

  // ---------------------------------------------------------------------
  // The order `sort.Strings` sorts by

  /** Lexicographic order on strings, character by character; a proper
      prefix comes first. */
  predicate Less(a: string, b: string)
  {
    if a == [] then b != []
    else if b == [] then false
    else a[0] < b[0] || (a[0] == b[0] && Less(a[1..], b[1..]))
  }

  lemma {:induction false} LessIrreflexive(a: string)
    ensures !Less(a, a)
  {
    if a != [] {
      LessIrreflexive(a[1..]);
    }
  }

  lemma {:induction false} LessAsymmetric(a: string, b: string)
    requires Less(a, b)
    ensures !Less(b, a)
  {
    if a != [] && b != [] && a[0] == b[0] {
      LessAsymmetric(a[1..], b[1..]);
    }
  }

  lemma {:induction false} LessTotal(a: string, b: string)
    ensures a == b || Less(a, b) || Less(b, a)
  {
    if a != [] && b != [] && a[0] == b[0] {
      LessTotal(a[1..], b[1..]);
      if a[1..] == b[1..] {
        assert a == [a[0]] + a[1..] && b == [b[0]] + b[1..];
      }
    }
  }

  lemma {:induction false} LessTransitive(a: string, b: string, c: string)
    requires Less(a, b) && Less(b, c)
    ensures Less(a, c)
  {
    if a != [] && a[0] == b[0] && b[0] == c[0] {
      LessTransitive(a[1..], b[1..], c[1..]);
    }
  }

  /** A proper prefix sorts before the string it starts. */
  lemma {:induction false} PrefixIsLess(a: string, b: string)
    requires |a| < |b| && b[..|a|] == a
    ensures Less(a, b)
  {
    if a != [] {
      assert a[0] == b[..|a|][0];
      assert b[1..][..|a[1..]|] == a[1..];
      PrefixIsLess(a[1..], b[1..]);
    }
  }

  /** A common first character does not change the order. */
  lemma SlashKeepsOrder(a: string, b: string)
    ensures Less("/" + a, "/" + b) <==> Less(a, b)
  {
    assert ("/" + a)[1..] == a && ("/" + b)[1..] == b;
  }

  /** Each neighbour pair in order (equal neighbours allowed). */
  predicate Sorted(s: seq<string>)
  {
    forall k :: 0 < k < |s| ==> !Less(s[k], s[k - 1])
  }

  /** Strictly ascending, every pair. */
  predicate StrictlyAscending(s: seq<string>)
  {
    forall i, j :: 0 <= i < j < |s| ==> Less(s[i], s[j])
  }

  predicate Distinct(s: seq<string>)
  {
    forall i, j :: 0 <= i < j < |s| ==> s[i] != s[j]
  }

  /** A sorted sequence without repeats is strictly ascending. */
  lemma {:induction false} SortedDistinctAscending(s: seq<string>)
    requires Sorted(s) && Distinct(s)
    ensures StrictlyAscending(s)
    decreases |s|
  {
    if |s| >= 2 {
      var init := s[..|s| - 1];
      assert Sorted(init) && Distinct(init);
      SortedDistinctAscending(init);
      var n := |s| - 1;
      assert Less(s[n - 1], s[n]) by {
        LessTotal(s[n - 1], s[n]);
      }
      forall i | 0 <= i < n ensures Less(s[i], s[n]) {
        if i < n - 1 {
          assert Less(init[i], init[n - 1]);
          LessTransitive(s[i], s[n - 1], s[n]);
        }
      }
    }
  }

  /** `sort.Strings`: sorts the slice in place (insertion sort here; the
      library's algorithm is not part of this model, only its result). */
  method SortStrings(a: array<string>)
    modifies a
    ensures Sorted(a[..])
    ensures multiset(a[..]) == multiset(old(a[..]))
  {
    var i := 0;
    while i < a.Length
      invariant 0 <= i <= a.Length
      invariant Sorted(a[..i])
      invariant multiset(a[..]) == multiset(old(a[..]))
    {
      Insert(a, i);
      i := i + 1;
    }
    assert a[..a.Length] == a[..];
  }

  /** Moves `a[i]` down into the sorted run before it. */
  method Insert(a: array<string>, i: nat)
    requires i < a.Length && Sorted(a[..i])
    modifies a
    ensures Sorted(a[..i + 1])
    ensures multiset(a[..]) == multiset(old(a[..]))
  {
    var j := i;
    while j > 0 && Less(a[j], a[j - 1])
      invariant 0 <= j <= i
      invariant Sorted(a[..j])
      invariant Sorted(a[j + 1..i + 1])
      invariant 0 < j < i ==> !Less(a[j + 1], a[j - 1])
      invariant j < i ==> Less(a[j], a[j + 1])
      invariant multiset(a[..]) == multiset(old(a[..]))
    {
      ghost var before := a[..];
      Swap(a, j);
      InsertStep(before, i, j);
      j := j - 1;
    }
    if j > 0 {
      LessTotal(a[j], a[j - 1]);
    }
    InsertedSorted(a[..i + 1], j);
  }

  /** One swap of `Insert` keeps its loop invariants, one place further
      down. */
  lemma InsertStep(s: seq<string>, i: nat, j: nat)
    requires 0 < j <= i < |s|
    requires Sorted(s[..j]) && Sorted(s[j + 1..i + 1])
    requires j < i ==> !Less(s[j + 1], s[j - 1])
    requires Less(s[j], s[j - 1])
    ensures var t := s[j - 1 := s[j]][j := s[j - 1]];
      && Sorted(t[..j - 1]) && Sorted(t[j..i + 1])
      && (0 < j - 1 ==> !Less(t[j], t[j - 2]))
      && Less(t[j - 1], t[j])
  {
    var t := s[j - 1 := s[j]][j := s[j - 1]];
    forall k | 0 < k < j - 1 ensures !Less(t[k], t[k - 1]) {
      assert t[k] == s[..j][k] && t[k - 1] == s[..j][k - 1];
    }
    assert t[..j - 1] == s[..j - 1];
    var u := t[j..i + 1];
    forall k | 0 < k < |u| ensures !Less(u[k], u[k - 1]) {
      if k > 1 {
        assert t[j + k] == s[j + 1..i + 1][k - 1] && t[j + k - 1] == s[j + 1..i + 1][k - 2];
      }
    }
    if 0 < j - 1 {
      assert t[j] == s[..j][j - 1] && t[j - 2] == s[..j][j - 2];
    }
  }

  /** Exchanges `a[j - 1]` and `a[j]`. */
  method Swap(a: array<string>, j: nat)
    requires 0 < j < a.Length
    modifies a
    ensures a[..] == old(a[..])[j - 1 := old(a[j])][j := old(a[j - 1])]
    ensures multiset(a[..]) == multiset(old(a[..]))
  {
    a[j - 1], a[j] := a[j], a[j - 1];
  }

  /** The two sorted runs around position `j` join into one. */
  lemma InsertedSorted(s: seq<string>, j: nat)
    requires j < |s|
    requires Sorted(s[..j]) && Sorted(s[j + 1..])
    requires j > 0 ==> !Less(s[j], s[j - 1])
    requires j + 1 < |s| ==> Less(s[j], s[j + 1])
    ensures Sorted(s)
  {
    forall k | 0 < k < |s| ensures !Less(s[k], s[k - 1]) {
      if k < j {
        assert s[k] == s[..j][k] && s[k - 1] == s[..j][k - 1];
      } else if k == j + 1 {
        LessAsymmetric(s[j], s[j + 1]);
      } else if k > j + 1 {
        assert s[k] == s[j + 1..][k - j - 1] && s[k - 1] == s[j + 1..][k - j - 2];
      }
    }
  }

  // ---------------------------------------------------------------------
  // Handlers and their mount order

  /** Stands for an `http.Handler`. */
  datatype Handler = Handler(id: nat)

  /** A path-prefix route of the router. */
  datatype Mount = Mount(prefix: string, handler: Handler)

  /** The first half of `SetHandler`, run when the option is built: the
      names of the handler map, in the map's (unspecified) order, then
      sorted. */
  method SortedNames(handlers: map<string, Handler>) returns (sts: seq<string>)
    ensures StrictlyAscending(sts)
    ensures |sts| == |handlers.Keys|
    ensures forall name :: name in sts <==> name in handlers
  {
    var names: seq<string> := [];
    var rest := handlers.Keys;
    while rest != {}
      invariant Distinct(names)
      invariant forall name :: name in handlers <==> name in names || name in rest
      invariant forall name :: name in names ==> name !in rest
      invariant |names| + |rest| == |handlers.Keys|
      decreases |rest|
    {
      var name :| name in rest;
      names := names + [name];
      rest := rest - {name};
    }
    var a := new string[|names|](k requires 0 <= k < |names| => names[k]);
    assert a[..] == names;
    SortStrings(a);
    sts := a[..];
    assert forall name :: name in sts <==> name in multiset(sts);
    assert forall name :: name in names <==> name in multiset(names);
    DistinctByMultiset(names, sts);
    SortedDistinctAscending(sts);
  }

  /** A reordering keeps a sequence free of repeats. */
  lemma DistinctByMultiset(a: seq<string>, b: seq<string>)
    requires Distinct(a) && multiset(a) == multiset(b)
    ensures Distinct(b)
  {
    forall x | x in multiset(a) ensures multiset(a)[x] == 1 {
      OccursOnce(a, x);
    }
    forall i, j | 0 <= i < j < |b| ensures b[i] != b[j] {
      if b[i] == b[j] {
        TwiceCounted(b, i, j);
      }
    }
  }

  lemma TwiceCounted(b: seq<string>, i: nat, j: nat)
    requires i < j < |b| && b[i] == b[j]
    ensures multiset(b)[b[i]] >= 2
  {
    assert b == b[..i] + [b[i]] + b[i + 1..];
    assert b[i + 1..][j - i - 1] == b[i];
  }

  lemma {:induction false} OccursOnce(a: seq<string>, x: string)
    requires Distinct(a) && x in multiset(a)
    ensures multiset(a)[x] == 1
    decreases |a|
  {
    assert a == [a[0]] + a[1..];
    var t := a[1..];
    assert Distinct(t);
    if a[0] == x {
      assert x !in t;
      assert multiset(t)[x] == 0;
    } else {
      OccursOnce(t, x);
    }
  }

  /** The routes the second half of `SetHandler` mounts for names taken
      from last to first: each name of the map under "/" + name. */
  function MountsOf(sts: seq<string>, handlers: map<string, Handler>): seq<Mount>
  {
    if sts == [] then []
    else MountsOf(sts[1..], handlers) + (if sts[0] in handlers then [Mount("/" + sts[0], handlers[sts[0]])] else [])
  }

  /** The second half of `SetHandler`, run when the option is applied:
      from the last name to the first, mount each name's handler. */
  method MountHandlers(sts: seq<string>, handlers: map<string, Handler>) returns (mounts: seq<Mount>)
    ensures mounts == MountsOf(sts, handlers)
  {
    mounts := [];
    var i := |sts|;
    while i > 0
      invariant 0 <= i <= |sts|
      invariant mounts == MountsOf(sts[i..], handlers)
    {
      i := i - 1;
      var name := sts[i];
      assert sts[i..][1..] == sts[i + 1..];
      if name in handlers {
        mounts := mounts + [Mount("/" + name, handlers[name])];
      }
    }
  }

  /** When every name is a key, one route per name, last name first. */
  lemma {:induction false} MountsReversed(sts: seq<string>, handlers: map<string, Handler>)
    requires forall name :: name in sts ==> name in handlers
    ensures |MountsOf(sts, handlers)| == |sts|
    ensures forall k :: 0 <= k < |sts| ==>
      MountsOf(sts, handlers)[k] == Mount("/" + sts[|sts| - 1 - k], handlers[sts[|sts| - 1 - k]])
  {
    if sts != [] {
      MountsReversed(sts[1..], handlers);
    }
  }

  /** Routes of sorted, distinct names come in strictly descending order
      of prefix, and every name of the map has its route. */
  lemma MountsDescending(sts: seq<string>, handlers: map<string, Handler>)
    requires StrictlyAscending(sts)
    requires forall name :: name in sts <==> name in handlers
    ensures forall p, q :: 0 <= p < q < |MountsOf(sts, handlers)| ==>
      Less(MountsOf(sts, handlers)[q].prefix, MountsOf(sts, handlers)[p].prefix)
    ensures forall name :: name in handlers ==> Mount("/" + name, handlers[name]) in MountsOf(sts, handlers)
    ensures forall m :: m in MountsOf(sts, handlers) ==>
      exists name :: name in handlers && m == Mount("/" + name, handlers[name])
  {
    MountsReversed(sts, handlers);
    var ms := MountsOf(sts, handlers);
    var n := |sts|;
    forall p, q | 0 <= p < q < |ms| ensures Less(ms[q].prefix, ms[p].prefix) {
      SlashKeepsOrder(sts[n - 1 - q], sts[n - 1 - p]);
    }
    forall name | name in handlers ensures Mount("/" + name, handlers[name]) in ms {
      var k :| 0 <= k < n && sts[k] == name;
      assert ms[n - 1 - k] == Mount("/" + name, handlers[name]);
    }
    forall m | m in ms ensures exists name :: name in handlers && m == Mount("/" + name, handlers[name]) {
      var k :| 0 <= k < n && ms[k] == m;
      assert m == Mount("/" + sts[n - 1 - k], handlers[sts[n - 1 - k]]);
    }
  }

  /** A name that is a proper prefix of another is mounted after it, so
      the router tries the longer name first. */
  lemma LongerNameFirst(sts: seq<string>, handlers: map<string, Handler>, p: nat, q: nat)
    requires StrictlyAscending(sts)
    requires forall name :: name in sts <==> name in handlers
    requires p < |MountsOf(sts, handlers)| && q < |MountsOf(sts, handlers)|
    requires var a, b := MountsOf(sts, handlers)[q].prefix, MountsOf(sts, handlers)[p].prefix;
      |a| < |b| && b[..|a|] == a
    ensures p < q
  {
    var ms := MountsOf(sts, handlers);
    MountsDescending(sts, handlers);
    PrefixIsLess(ms[q].prefix, ms[p].prefix);
    if q < p {
      LessAsymmetric(ms[q].prefix, ms[p].prefix);
    }
  }

  // ---------------------------------------------------------------------
  // The server and its options

  /** Stands for a go-kit logger. */
  datatype Logger = Logger(id: nat)

  /** Stands for a service's `JoinGRPC` registration function. */
  datatype Join = Join(service: string)

  /** A gRPC server: its connection timeout in seconds and the services
      joined to it, in the order they were joined. */
  datatype GRPCServer = GRPCServer(timeoutSec: int, services: seq<Join>)

  /** An `Option` closure, by what it captured. The configuration is a
      pointer and may be nil. */
  datatype ServerOption =
    | SetLogger(logger: Logger)
    | SetConfig(cfg: Option<Configs.Config>)
    | SetHandler(sts: seq<string>, handlers: map<string, Handler>)
    | SetGRPC(joins: seq<Join>)

  /** What a server holds. */
  datatype ServerState = ServerState(
    cfg: Option<Configs.Config>,
    logger: Option<Logger>,
    handler: Option<seq<Mount>>,
    grpc: Option<GRPCServer>)

  /** A freshly allocated server. */
  const Blank := ServerState(None, None, None, None)

  /** The effect of one option; `None` when it panics, which only
      `SetGRPC` does, reading the timeout through a nil configuration. */
  function Applied(st: ServerState, o: ServerOption): Option<ServerState>
  {
    match o
    case SetLogger(l) => Some(st.(logger := Some(l)))
    case SetConfig(c) => Some(st.(cfg := c))
    case SetHandler(sts, h) => Some(st.(handler := Some(MountsOf(sts, h))))
    case SetGRPC(js) =>
      if st.cfg.None? then None
      else Some(st.(grpc := Some(GRPCServer(st.cfg.value.server.grpc.timeoutSec, js))))
  }

  /** The effect of a list of options, applied in order; `None` once one
      panics. */
  function AppliedAll(st: ServerState, ops: seq<ServerOption>): Option<ServerState>
  {
    if ops == [] then Some(st)
    else
      match AppliedAll(st, ops[..|ops| - 1])
      case None => None
      case Some(mid) => Applied(mid, ops[|ops| - 1])
  }

  /** `SetHandler`: the names are collected and sorted when the option is
      built, and the routes are mounted when it is applied. */
  method MakeSetHandler(handlers: map<string, Handler>) returns (o: ServerOption)
    ensures o.SetHandler? && o.handlers == handlers
    ensures StrictlyAscending(o.sts) && |o.sts| == |handlers.Keys|
    ensures forall name :: name in o.sts <==> name in handlers
  {
    var sts := SortedNames(handlers);
    o := SetHandler(sts, handlers);
  }

  /** The body of `SetGRPC`'s closure once the timeout is read: a new gRPC
      server, then each join function called once on it, in order. */
  method NewGRPCServer(timeoutSec: int, joins: seq<Join>) returns (g: GRPCServer)
    ensures g.timeoutSec == timeoutSec
    ensures g.services == joins
  {
    g := GRPCServer(timeoutSec, []);
    var i := 0;
    while i < |joins|
      invariant 0 <= i <= |joins|
      invariant g == GRPCServer(timeoutSec, joins[..i])
    {
      g := g.(services := g.services + [joins[i]]);
      assert joins[..i + 1] == joins[..i] + [joins[i]];
      i := i + 1;
    }
    assert joins[..i] == joins;
  }

  class Server {
    var cfg: Option<Configs.Config>
    var logger: Option<Logger>
    var handler: Option<seq<Mount>>
    var grpc: Option<GRPCServer>

    function State(): ServerState
      reads this
    {
      ServerState(cfg, logger, handler, grpc)
    }

    /** `new(Server)`: every field nil. */
    constructor ()
      ensures State() == Blank
    {
      cfg := None;
      logger := None;
      handler := None;
      grpc := None;
    }

    /** Calls one option on this server. A panic leaves the server as it
        was: the nil configuration is read before anything is built. */
    method Apply(o: ServerOption) returns (panicked: bool)
      modifies this
      ensures panicked <==> Applied(old(State()), o).None?
      ensures !panicked ==> State() == Applied(old(State()), o).value
      ensures panicked ==> State() == old(State())
    {
      panicked := false;
      match o
      case SetLogger(l) =>
        logger := Some(l);
      case SetConfig(c) =>
        cfg := c;
      case SetHandler(sts, h) =>
        var mounts := MountHandlers(sts, h);
        handler := Some(mounts);
      case SetGRPC(js) =>
        if cfg.None? {
          panicked := true;
          return;
        }
        var g := NewGRPCServer(cfg.value.server.grpc.timeoutSec, js);
        grpc := Some(g);
    }
  }

  /** `NewServer`: a new server with every option applied once, in the
      order given. The error result is always nil; a panicking option
      ends the construction. */
  method NewServer(ops: seq<ServerOption>) returns (svc: Server, err: Option<Error>, panicked: bool)
    ensures fresh(svc)
    ensures err == None
    ensures panicked <==> AppliedAll(Blank, ops).None?
    ensures !panicked ==> svc.State() == AppliedAll(Blank, ops).value
  {
    svc := new Server();
    err := None;
    panicked := false;
    var i := 0;
    while i < |ops|
      invariant 0 <= i <= |ops|
      invariant AppliedAll(Blank, ops[..i]) == Some(svc.State())
      modifies svc
    {
      assert ops[..i + 1][..i] == ops[..i];
      panicked := svc.Apply(ops[i]);
      if panicked {
        MorePanics(Blank, ops[..i + 1], ops[i + 1..]);
        assert ops[..i + 1] + ops[i + 1..] == ops;
        return;
      }
      i := i + 1;
    }
    assert ops[..i] == ops;
  }

  /** Applying `a` then `b` is applying `a + b`; once an option has
      panicked, nothing after it is applied. */
  lemma {:induction false} AppliedAllConcat(st: ServerState, a: seq<ServerOption>, b: seq<ServerOption>)
    ensures AppliedAll(st, a + b) ==
      match AppliedAll(st, a)
      case None => None
      case Some(mid) => AppliedAll(mid, b)
    decreases |b|
  {
    if b == [] {
      assert a + b == a;
    } else {
      assert (a + b)[..|a + b| - 1] == a + b[..|b| - 1];
      AppliedAllConcat(st, a, b[..|b| - 1]);
    }
  }

  lemma MorePanics(st: ServerState, a: seq<ServerOption>, b: seq<ServerOption>)
    requires AppliedAll(st, a).None?
    ensures AppliedAll(st, a + b).None?
  {
    AppliedAllConcat(st, a, b);
  }

  /** The options `main` passes, in its order, never panic: the
      configuration is set before the gRPC server reads its timeout, and
      the server ends up holding all four parts. */
  lemma MainOptions(c: Configs.Config, l: Logger, handlers: map<string, Handler>, sts: seq<string>, joins: seq<Join>)
    ensures AppliedAll(Blank, [SetConfig(Some(c)), SetLogger(l), SetHandler(sts, handlers), SetGRPC(joins)])
      == Some(ServerState(Some(c), Some(l), Some(MountsOf(sts, handlers)), Some(GRPCServer(c.server.grpc.timeoutSec, joins))))
  {
    var ops := [SetConfig(Some(c)), SetLogger(l), SetHandler(sts, handlers), SetGRPC(joins)];
    var s1 := Blank.(cfg := Some(c));
    var s2 := s1.(logger := Some(l));
    var s3 := s2.(handler := Some(MountsOf(sts, handlers)));
    assert ops[..1][..0] == [];
    assert AppliedAll(Blank, ops[..1]) == Some(s1);
    assert ops[..2][..1] == ops[..1];
    assert AppliedAll(Blank, ops[..2]) == Some(s2);
    assert ops[..3][..2] == ops[..2];
    assert AppliedAll(Blank, ops[..3]) == Some(s3);
    assert ops[..3] == ops[..|ops| - 1];
  }

  /** Without a configuration set first, `SetGRPC` panics. */
  lemma GRPCNeedsConfig(ops: seq<ServerOption>, joins: seq<Join>)
    requires forall k :: 0 <= k < |ops| ==> !ops[k].SetConfig?
    ensures AppliedAll(Blank, ops + [SetGRPC(joins)]).None?
  {
    NoConfigStaysNil(ops);
    assert (ops + [SetGRPC(joins)])[..|ops|] == ops;
  }

  lemma {:induction false} NoConfigStaysNil(ops: seq<ServerOption>)
    requires forall k :: 0 <= k < |ops| ==> !ops[k].SetConfig?
    ensures AppliedAll(Blank, ops).Some? ==> AppliedAll(Blank, ops).value.cfg.None?
  {
    if ops != [] {
      NoConfigStaysNil(ops[..|ops| - 1]);
    }
  }
}
