/** What executing a list of moves does to the attached programs, whatever call fails. */
module V2Execution {
  import opened Wrappers
  import opened V2Plan
  import opened V2Kernel

  // Programs told apart by their ids.
  ghost predicate DistinctIds(universe: set<Prog>) {
    forall p, q | p in universe && q in universe :: p.id == q.id ==> p == q
  }

  ghost predicate NoDuplicates<T>(s: seq<T>) {
    forall i, j | 0 <= i < j < |s| :: s[i] != s[j]
  }

  // A set of attached programs: no program twice, none from elsewhere.
  ghost predicate Within(progs: seq<Prog>, universe: set<Prog>) {
    NoDuplicates(progs) && forall p | p in progs :: p in universe
  }

  // No call is going to fail.
  predicate Unfailing(k: Kernel) {
    |k.faults| == 0
  }

  // --- Kernel calls on sets of programs -----------------------------------------------------------------

  lemma {:induction false} WithoutIdRemoves(progs: seq<Prog>, prior: Prog, universe: set<Prog>)
    requires Within(progs, universe) && DistinctIds(universe) && prior in universe
    ensures forall p :: p in WithoutId(progs, prior.id) <==> p in progs && p != prior
    ensures Within(WithoutId(progs, prior.id), universe)
  {
    if |progs| > 0 {
      var rest := progs[1..];
      assert forall i | 0 <= i < |rest| :: rest[i] == progs[i + 1];
      WithoutIdRemoves(rest, prior, universe);
      assert progs[0] in progs && progs[0] in universe;
      assert forall p :: p in progs <==> p == progs[0] || p in rest;
      assert progs[0] !in rest;
    }
  }

  lemma AttachAdds(progs: seq<Prog>, prog: Prog, universe: set<Prog>)
    requires Within(progs, universe) && prog in universe && prog !in progs
    ensures forall p :: p in progs + [prog] <==> p in progs || p == prog
    ensures Within(progs + [prog], universe)
  {
    var more := progs + [prog];
    forall i, j | 0 <= i < j < |more|
      ensures more[i] != more[j]
    {
      assert more[i] in progs;
    }
  }

  lemma ReplaceSwaps(progs: seq<Prog>, prior: Prog, prog: Prog, universe: set<Prog>, i: nat)
    requires Within(progs, universe) && DistinctIds(universe)
    requires prior in progs && prog in universe && prog !in progs
    requires i < |progs| && progs[i].id == prior.id
    ensures forall p :: p in progs[i := prog] <==> (p in progs && p != prior) || p == prog
    ensures Within(progs[i := prog], universe)
  {
    assert progs[i] in progs && progs[i] == prior;
    var next := progs[i := prog];
    forall p
      ensures p in next <==> (p in progs && p != prior) || p == prog
    {
      if p in next {
        var j :| 0 <= j < |next| && next[j] == p;
        assert j != i ==> p == progs[j];
      }
      if p in progs && p != prior {
        var j :| 0 <= j < |progs| && progs[j] == p;
        assert next[j] == p;
      }
      assert next[i] == prog;
    }
    forall a, b | 0 <= a < b < |next|
      ensures next[a] != next[b]
    {
      assert a != i ==> progs[a] in progs;
      assert b != i ==> progs[b] in progs;
    }
  }

  // `progs` differs from `start` at most in the programs of `touched`.
  ghost predicate OnlyTouches(start: seq<Prog>, progs: seq<Prog>, touched: set<Prog>) {
    forall p | p !in touched :: p in start <==> p in progs
  }

  // --- Jobs -----------------------------------------------------------------------------------------------

  // A move on actual programs: what it keeps or replaces, what it takes off, what it loads.
  datatype Job =
    | KeepJob(kept: Prog, gone: set<Prog>)
    | ReplaceJob(prior: Prog, gone: set<Prog>, loaded: Prog)
    | AddJob(loaded: Prog)
  {
    function Progs(): set<Prog> {
      match this
      case KeepJob(kept, gone) => {kept} + gone
      case ReplaceJob(prior, gone, loaded) => {prior, loaded} + gone
      case AddJob(loaded) => {loaded}
    }

    // The one program left for the lineage.
    function Result(): Prog {
      match this
      case KeepJob(kept, _) => kept
      case ReplaceJob(_, _, loaded) => loaded
      case AddJob(loaded) => loaded
    }

    // The programs it names are different ones.
    ghost predicate Sound(universe: set<Prog>) {
      && Progs() <= universe
      && match this
         case KeepJob(kept, gone) => kept !in gone
         case ReplaceJob(prior, gone, loaded) => prior !in gone && loaded !in gone && loaded != prior
         case AddJob(_) => true
    }

    // Everything it works on is as the query found it.
    ghost predicate Ready(progs: seq<Prog>) {
      match this
      case KeepJob(kept, gone) => kept in progs && forall p | p in gone :: p in progs
      case ReplaceJob(prior, gone, loaded) => loaded !in progs && prior in progs && forall p | p in gone :: p in progs
      case AddJob(loaded) => loaded !in progs
    }

    // The lineage has a program attached: the kept one, the new one, or while the new one is not
    // there all the ones it replaces.
    ghost predicate Covered(progs: seq<Prog>) {
      match this
      case KeepJob(kept, _) => kept in progs
      case ReplaceJob(prior, gone, loaded) => loaded in progs || (prior in progs && forall p | p in gone :: p in progs)
      case AddJob(_) => true
    }

    // Of its programs exactly its result is attached.
    ghost predicate Settled(progs: seq<Prog>) {
      forall p | p in Progs() :: p in progs <==> p == Result()
    }
  }

  function MoveIndices(move: Move): seq<nat> {
    match move
    case Keep(kept, detached, _) => [kept] + detached
    case Replace(prior, _, detached, _) => [prior] + detached
    case Add(_, _) => []
  }

  predicate IndicesFit(indices: seq<nat>, count: nat) {
    forall k | 0 <= k < |indices| :: indices[k] < count
  }

  // The programs of `before` at `indices`.
  function At(before: seq<Prog>, indices: seq<nat>): (r: set<Prog>)
    requires IndicesFit(indices, |before|)
    ensures forall p :: p in r <==> exists k | 0 <= k < |indices| :: before[indices[k]] == p
  {
    set k | 0 <= k < |indices| :: before[indices[k]]
  }

  // The job of a move whose load is number `load`.
  predicate MoveFits(move: Move, before: nat, load: nat, loads: nat) {
    match move
    case Keep(kept, detached, _) => kept < before && IndicesFit(detached, before)
    case Replace(prior, _, detached, _) => prior < before && IndicesFit(detached, before) && load < loads
    case Add(_, _) => load < loads
  }

  function JobOf(before: seq<Prog>, progs: seq<Prog>, move: Move, load: nat): Job
    requires MoveFits(move, |before|, load, |progs|)
  {
    match move
    case Keep(kept, detached, _) => KeepJob(before[kept], At(before, detached))
    case Replace(prior, _, detached, _) => ReplaceJob(before[prior], At(before, detached), progs[load])
    case Add(_, _) => AddJob(progs[load])
  }

  // --- Runs of kernel calls -------------------------------------------------------------------------------

  // `k'` is reached from `k` by calls that touch only the programs of `touched`: so does every set
  // of programs attached in between.
  ghost predicate Ran(k: Kernel, k': Kernel, touched: set<Prog>, universe: set<Prog>) {
    && |k.trace| <= |k'.trace| && k'.trace[..|k.trace|] == k.trace
    && k'.nextId == k.nextId
    && Within(k'.attached, universe) && OnlyTouches(k.attached, k'.attached, touched)
    && forall t | |k.trace| <= t < |k'.trace| ::
         Within(k'.trace[t], universe) && OnlyTouches(k.attached, k'.trace[t], touched)
  }

  lemma RanThen(k: Kernel, k1: Kernel, k2: Kernel, a: set<Prog>, b: set<Prog>, universe: set<Prog>)
    requires Ran(k, k1, a, universe) && Ran(k1, k2, b, universe)
    ensures Ran(k, k2, a + b, universe)
  {
    hide Within;
    forall t | |k.trace| <= t < |k2.trace|
      ensures Within(k2.trace[t], universe) && OnlyTouches(k.attached, k2.trace[t], a + b)
    {
      if t < |k1.trace| {
        assert k2.trace[t] == k2.trace[..|k1.trace|][t];
      }
    }
    assert k2.trace[..|k.trace|] == k2.trace[..|k1.trace|][..|k.trace|];
  }

  // A program outside what is touched stays attached throughout.
  lemma StaysAttached(k: Kernel, k': Kernel, touched: set<Prog>, universe: set<Prog>, p: Prog)
    requires Ran(k, k', touched, universe) && p !in touched
    ensures p in k.attached <==> p in k'.attached
    ensures forall t | |k.trace| <= t < |k'.trace| :: p in k.attached <==> p in k'.trace[t]
  {
    hide Within;
  }

  lemma RanOne(k: Kernel, k': Kernel, touched: set<Prog>, universe: set<Prog>)
    requires Within(k.attached, universe)
    requires k' == k.Called() || (k' == k.Changed(k'.attached) && Within(k'.attached, universe)
                                  && OnlyTouches(k.attached, k'.attached, touched))
    ensures Ran(k, k', touched, universe)
  {
    hide Within;
  }

  lemma AttachRan(k: Kernel, prog: Prog, universe: set<Prog>)
    requires Within(k.attached, universe) && prog in universe && prog !in k.attached
    ensures var (k', f) := KAttach(k, prog);
            && Ran(k, k', {prog}, universe) && (Unfailing(k) ==> f == Works && Unfailing(k'))
            && (if f == Works then prog in k'.attached else k'.attached == k.attached && k'.trace == k.trace)
  {
    hide Within;
    AttachAdds(k.attached, prog, universe);
    RanOne(k, KAttach(k, prog).0, {prog}, universe);
    hide Ran;
  }

  lemma DetachRan(k: Kernel, prior: Prog, universe: set<Prog>)
    requires Within(k.attached, universe) && DistinctIds(universe) && prior in universe
    ensures var (k', f) := KDetach(k, prior);
            && Ran(k, k', {prior}, universe) && (Unfailing(k) ==> f == Works && Unfailing(k'))
            && (if f == Works then prior !in k'.attached else k'.attached == k.attached && k'.trace == k.trace)
  {
    hide Within;
    WithoutIdRemoves(k.attached, prior, universe);
    RanOne(k, KDetach(k, prior).0, {prior}, universe);
    hide Ran;
  }

  lemma ReplaceRan(k: Kernel, prior: Prog, prog: Prog, universe: set<Prog>)
    requires Within(k.attached, universe) && DistinctIds(universe)
    requires prior in k.attached && prog in universe && prog !in k.attached
    ensures var (k', f) := KReplace(k, prior, prog);
            && Ran(k, k', {prior, prog}, universe) && (Unfailing(k) ==> f == Works && Unfailing(k'))
            && (if f == Works then prog in k'.attached && prior !in k'.attached && |k'.trace| == |k.trace| + 1
                                   && k'.trace[|k.trace|] == k'.attached
                else k'.attached == k.attached && k'.trace == k.trace)
  {
    hide Within;
    var k' := KReplace(k, prior, prog).0;
    match FindId(k.attached, prior.id, 0)
    case None =>
    case Some(i) =>
      ReplaceSwaps(k.attached, prior, prog, universe, i);
    RanOne(k, k', {prior, prog}, universe);
    hide Ran;
  }

  lemma RanWithin(k: Kernel, k': Kernel, touched: set<Prog>, universe: set<Prog>)
    requires Ran(k, k', touched, universe)
    ensures Within(k'.attached, universe)
  {
  }

  lemma RanMore(k: Kernel, k': Kernel, a: set<Prog>, b: set<Prog>, universe: set<Prog>)
    requires Ran(k, k', a, universe) && a <= b
    ensures Ran(k, k', b, universe)
  {
    hide Within;
  }

  // One of two programs is attached in every state in between.
  ghost predicate Either(k: Kernel, k': Kernel, p: Prog, q: Prog) {
    && |k.trace| <= |k'.trace| && k'.trace[..|k.trace|] == k.trace
    && forall t | |k.trace| <= t < |k'.trace| :: p in k'.trace[t] || q in k'.trace[t]
  }

  lemma EitherThen(k: Kernel, k1: Kernel, k2: Kernel, p: Prog, q: Prog)
    requires Either(k, k1, p, q) && Either(k1, k2, p, q)
    ensures Either(k, k2, p, q)
  {
    forall t | |k.trace| <= t < |k2.trace|
      ensures p in k2.trace[t] || q in k2.trace[t]
    {
      if t < |k1.trace| {
        assert k2.trace[t] == k2.trace[..|k1.trace|][t];
      }
    }
    assert k2.trace[..|k.trace|] == k2.trace[..|k1.trace|][..|k.trace|];
  }

  lemma EitherStays(k: Kernel, k': Kernel, touched: set<Prog>, universe: set<Prog>, p: Prog, q: Prog)
    requires Ran(k, k', touched, universe)
    requires (p in k.attached && p !in touched) || (q in k.attached && q !in touched)
    ensures Either(k, k', p, q)
  {
    hide Within;
  }

  // Putting a program in place of another: in every state in between one of the two is attached,
  // and at the end the new one alone, or else the old one still.
  ghost predicate Swapped(k: Kernel, k': Kernel, prior: Prog, prog: Prog, ok: bool, universe: set<Prog>) {
    && Ran(k, k', {prior, prog}, universe)
    && Either(k, k', prior, prog)
    && (if ok then prog in k'.attached && prior !in k'.attached else prior in k'.attached)
    && (Unfailing(k) ==> ok && Unfailing(k'))
  }

  lemma AttachDetachSwaps(k: Kernel, prior: Prog, prog: Prog, universe: set<Prog>)
    requires Within(k.attached, universe) && DistinctIds(universe)
    requires prior in k.attached && prog in universe && prog !in k.attached
    ensures var (k', r) := AttachDetach(k, prior, prog); Swapped(k, k', prior, prog, r.Success?, universe)
  {
    assert prior in universe && prior != prog;
    hide Within, DistinctIds, Ran, Either, KAttach, KDetach;
    var (k1, f1) := KAttach(k, prog);
    AttachRan(k, prog, universe);
    EitherStays(k, k1, {prog}, universe, prior, prog);
    StaysAttached(k, k1, {prog}, universe, prior);
    RanMore(k, k1, {prog}, {prior, prog}, universe);
    if f1 == Works {
      RanWithin(k, k1, {prog}, universe);
      var (k2, f2) := KDetach(k1, prior);
      DetachRan(k1, prior, universe);
      EitherStays(k1, k2, {prior}, universe, prior, prog);
      StaysAttached(k1, k2, {prior}, universe, prog);
      RanThen(k, k1, k2, {prior, prog}, {prior}, universe);
      EitherThen(k, k1, k2, prior, prog);
      assert {prior, prog} + {prior} == {prior, prog};
      if f2 != Works {
        RanWithin(k1, k2, {prior}, universe);
        var (k3, f3) := KDetach(k2, prog);
        DetachRan(k2, prog, universe);
        EitherStays(k2, k3, {prog}, universe, prior, prog);
        StaysAttached(k2, k3, {prog}, universe, prior);
        RanThen(k, k2, k3, {prior, prog}, {prog}, universe);
        EitherThen(k, k2, k3, prior, prog);
        assert {prior, prog} + {prog} == {prior, prog};
      }
    }
  }

  lemma SwapSwaps(k: Kernel, probe: Probe, prior: Prog, prog: Prog, universe: set<Prog>)
    requires Within(k.attached, universe) && DistinctIds(universe)
    requires prior in k.attached && prog in universe && prog !in k.attached
    ensures var (k', _, r) := Swap(k, probe, prior, prog); Swapped(k, k', prior, prog, r.Success?, universe)
  {
    if probe.Usable() {
      var (k1, f) := KReplace(k, prior, prog);
      ReplaceRan(k, prior, prog, universe);
      hide Within, DistinctIds, Ran, KReplace, AttachDetach;
      if f == Works || probe.Record(f).Usable() {
        assert Either(k, k1, prior, prog);
      } else {
        RanWithin(k, k1, {prior, prog}, universe);
        AttachDetachSwaps(k1, prior, prog, universe);
        var k2 := AttachDetach(k1, prior, prog).0;
        RanThen(k, k1, k2, {prior, prog}, {prior, prog}, universe);
        assert {prior, prog} + {prior, prog} == {prior, prog};
        assert Either(k, k1, prior, prog);
        EitherThen(k, k1, k2, prior, prog);
      }
    } else {
      AttachDetachSwaps(k, prior, prog, universe);
    }
  }

  // What becomes of the kernel calls to come, call by call.
  function FateAt(k: Kernel, n: nat): Fault {
    if n < |k.faults| then k.faults[n] else Works
  }

  lemma CalledFates(k: Kernel, n: nat)
    ensures k.Fate() == FateAt(k, 0) && FateAt(k.Called(), n) == FateAt(k, n + 1)
  {
  }

  // No two attached programs share a number, and none has that of the new one.
  ghost predicate NewTo(attached: seq<Prog>, prog: Prog) {
    && (forall i, j | 0 <= i < j < |attached| :: attached[i].id != attached[j].id)
    && forall i | 0 <= i < |attached| :: attached[i].id != prog.id
  }

  lemma {:induction false} WithoutNone(progs: seq<Prog>, id: nat)
    requires forall i | 0 <= i < |progs| :: progs[i].id != id
    ensures WithoutId(progs, id) == progs
  {
    if |progs| > 0 {
      WithoutNone(progs[1..], id);
    }
  }

  lemma {:induction false} WithoutJoins(a: seq<Prog>, b: seq<Prog>, id: nat)
    ensures WithoutId(a + b, id) == WithoutId(a, id) + WithoutId(b, id)
  {
    if |a| == 0 {
      assert a + b == b;
    } else {
      assert (a + b)[0] == a[0] && (a + b)[1..] == a[1..] + b;
      WithoutJoins(a[1..], b, id);
    }
  }

  lemma WithoutOne(p: Prog, id: nat)
    ensures WithoutId([p], id) == if p.id == id then [] else [p]
  {
    assert [p][1..] == [];
  }

  // The programs without the old one, in order.
  function Except(attached: seq<Prog>, prior: Prog): seq<Prog> {
    if |attached| == 0 then []
    else if attached[0] == prior then attached[1..]
    else [attached[0]] + Except(attached[1..], prior)
  }

  lemma {:induction false} WithoutPrior(attached: seq<Prog>, prior: Prog)
    requires prior in attached && forall i, j | 0 <= i < j < |attached| :: attached[i].id != attached[j].id
    ensures WithoutId(attached, prior.id) == Except(attached, prior)
  {
    if attached[0] == prior {
      WithoutNone(attached[1..], prior.id);
    } else {
      var k :| 0 <= k < |attached| && attached[k] == prior;
      assert attached[1..][k - 1] == prior;
      WithoutPrior(attached[1..], prior);
    }
  }

  // The programs with the new one where the old one was.
  function InPlace(attached: seq<Prog>, prior: Prog, prog: Prog): seq<Prog> {
    if |attached| == 0 then []
    else [if attached[0] == prior then prog else attached[0]] + InPlace(attached[1..], prior, prog)
  }

  lemma {:induction false} PutInPlace(attached: seq<Prog>, prior: Prog, prog: Prog, i: nat)
    requires i < |attached| && attached[i] == prior && forall k | 0 <= k < |attached| && k != i :: attached[k] != prior
    ensures attached[i := prog] == InPlace(attached, prior, prog)
  {
    if i == 0 {
      NothingInPlace(attached[1..], prior, prog);
      assert attached[0 := prog] == [prog] + attached[1..];
    } else {
      PutInPlace(attached[1..], prior, prog, i - 1);
      assert attached[i := prog] == [attached[0]] + attached[1..][i - 1 := prog];
    }
  }

  lemma {:induction false} NothingInPlace(attached: seq<Prog>, prior: Prog, prog: Prog)
    requires forall k | 0 <= k < |attached| :: attached[k] != prior
    ensures InPlace(attached, prior, prog) == attached
  {
    if |attached| > 0 {
      NothingInPlace(attached[1..], prior, prog);
    }
  }

  lemma AttachDetachEnds(k: Kernel, prior: Prog, prog: Prog)
    requires prior in k.attached && NewTo(k.attached, prog)
    ensures var (k', r) := AttachDetach(k, prior, prog);
            if FateAt(k, 0) != Works then r == Failure(AttachRefused) && k'.attached == k.attached
            else if FateAt(k, 1) == Works then r == Success(()) && k'.attached == Except(k.attached, prior) + [prog]
            else if FateAt(k, 2) == Works then r == Failure(DetachRefused) && k'.attached == k.attached
            else r == Failure(RollbackRefused) && k'.attached == k.attached + [prog]
  {
    CalledFates(k, 0);
    CalledFates(k, 1);
    CalledFates(k.Called(), 0);
    var both := k.attached + [prog];
    WithoutJoins(k.attached, [prog], prior.id);
    WithoutJoins(k.attached, [prog], prog.id);
    WithoutOne(prog, prior.id);
    WithoutOne(prog, prog.id);
    WithoutPrior(k.attached, prior);
    WithoutNone(k.attached, prog.id);
    hide WithoutId, FateAt, Except;
    assert k.attached + [] == k.attached;
  }

  // The calls a swap makes before it falls back on attach and detach.
  predicate FallsBack(k: Kernel, probe: Probe) {
    probe == Unsupported || (probe == Unknown && FateAt(k, 0) == Einval)
  }

  // Where a swap ends, by the fate of its calls: the new program in place of the old one, or after it;
  // and the pair exactly as it was, unless the old one could not be detached and then the new one not
  // either.
  lemma SwapEnds(k: Kernel, probe: Probe, prior: Prog, prog: Prog)
    requires prior in k.attached && NewTo(k.attached, prog)
    ensures var known := Swap(k, probe, prior, prog).1;
            if probe != Unknown then known == probe
            else known == if FateAt(k, 0) == Works then Supported else if FateAt(k, 0) == Einval then Unsupported else Unknown
    ensures var (k', _, r) := Swap(k, probe, prior, prog);
            var first := if probe == Unsupported then 0 else 1;
            if !FallsBack(k, probe) then
              if FateAt(k, 0) == Works then r == Success(()) && k'.attached == InPlace(k.attached, prior, prog)
              else r == Failure(ReplaceRefused) && k'.attached == k.attached
            else if FateAt(k, first) != Works then r == Failure(AttachRefused) && k'.attached == k.attached
            else if FateAt(k, first + 1) == Works then r == Success(()) && k'.attached == Except(k.attached, prior) + [prog]
            else if FateAt(k, first + 2) == Works then r == Failure(DetachRefused) && k'.attached == k.attached
            else r == Failure(RollbackRefused) && k'.attached == k.attached + [prog]
  {
    var tried := k.Called();
    CalledFates(k, 0);
    CalledFates(k, 1);
    CalledFates(k, 2);
    AttachDetachEnds(k, prior, prog);
    AttachDetachEnds(tried, prior, prog);
    var i := FindId(k.attached, prior.id, 0);
    assert i.Some? && k.attached[i.value] == prior;
    PutInPlace(k.attached, prior, prog, i.value);
    hide AttachDetach, Except, InPlace, FindId, FateAt;
  }

  // A swap that fails leaves the pair as it was, unless the attach worked and both detaches after it
  // were refused; that failure is told apart, and only then is the new program left attached.
  lemma SwapRollsBack(k: Kernel, probe: Probe, prior: Prog, prog: Prog)
    requires prior in k.attached && NewTo(k.attached, prog) && Swap(k, probe, prior, prog).2.Failure?
    ensures var (k', _, r) := Swap(k, probe, prior, prog);
            var first := if probe == Unsupported then 0 else 1;
            && (r.error == RollbackRefused <==> prog in k'.attached)
            && (r.error != RollbackRefused <==> k'.attached == k.attached)
            && (r.error == RollbackRefused <==>
                  && FallsBack(k, probe) && FateAt(k, first) == Works
                  && FateAt(k, first + 1) != Works && FateAt(k, first + 2) != Works)
  {
    SwapEnds(k, probe, prior, prog);
    hide Swap, FateAt;
    assert prog !in k.attached && |k.attached + [prog]| == |k.attached| + 1;
  }

  // --- Lists of steps ---------------------------------------------------------------------------------------

  lemma {:induction false} ExecuteSplit(k: Kernel, probe: Probe, before: seq<Prog>, loaded: seq<Prog>, a: seq<Step>, b: seq<Step>)
    requires StepsFit(a, |before|, |loaded|) && StepsFit(b, |before|, |loaded|)
    ensures StepsFit(a + b, |before|, |loaded|)
    ensures var (k1, probe1, r1) := ExecuteSteps(k, probe, before, loaded, a);
            (if r1.Failure? then (k1, probe1, r1) else ExecuteSteps(k1, probe1, before, loaded, b))
            == ExecuteSteps(k, probe, before, loaded, a + b)
    decreases |a|
  {
    hide ExecuteStep;
    if |a| == 0 {
      assert a + b == b;
    } else {
      assert (a + b)[0] == a[0] && (a + b)[1..] == a[1..] + b;
      var (k1, probe1, r1) := ExecuteStep(k, probe, before, loaded, a[0]);
      ExecuteSplit(k1, probe1, before, loaded, a[1..], b);
    }
  }

  lemma DetachesFit(olds: seq<nat>, before: nat, loaded: nat)
    requires IndicesFit(olds, before)
    ensures StepsFit(Detaches(olds), before, loaded)
  {
  }

  // A run of detaches takes off the programs it names, or stops on the way.
  lemma {:induction false} DetachMany(k: Kernel, probe: Probe, before: seq<Prog>, loaded: seq<Prog>, olds: seq<nat>,
                                      universe: set<Prog>)
    requires IndicesFit(olds, |before|) && Within(k.attached, universe) && DistinctIds(universe)
    requires At(before, olds) <= universe
    ensures StepsFit(Detaches(olds), |before|, |loaded|)
    ensures var (k', _, r) := ExecuteSteps(k, probe, before, loaded, Detaches(olds));
            && Ran(k, k', At(before, olds), universe)
            && (forall p | p in k'.attached && p in At(before, olds) :: p in k.attached)
            && (r.Success? ==> forall p | p in At(before, olds) :: p !in k'.attached)
            && (Unfailing(k) ==> r.Success? && Unfailing(k'))
    decreases |olds|
  {
    DetachesFit(olds, |before|, |loaded|);
    if |olds| == 0 {
      assert Ran(k, k, At(before, olds), universe);
    } else {
      var prior, rest := before[olds[0]], olds[1..];
      assert prior in At(before, olds);
      var (k1, f) := KDetach(k, prior);
      DetachRan(k, prior, universe);
      assert Detaches(olds)[0] == Detach(olds[0]) && Detaches(olds)[1..] == Detaches(rest);
      AtSplits(before, olds);
      DetachesFit(rest, |before|, |loaded|);
      DetachOnly(k, prior);
      hide Within, DistinctIds, Ran, KDetach, Detaches, At;
      if f == Works {
        RanWithin(k, k1, {prior}, universe);
        DetachMany(k1, probe, before, loaded, rest, universe);
        var (k', _, r) := ExecuteSteps(k1, probe, before, loaded, Detaches(rest));
        RanThen(k, k1, k', {prior}, At(before, rest), universe);
        if prior !in At(before, rest) {
          StaysAttached(k1, k', At(before, rest), universe, prior);
        }
      } else {
        RanMore(k, k1, {prior}, At(before, olds), universe);
      }
    }
  }

  lemma AtSplits(before: seq<Prog>, olds: seq<nat>)
    requires |olds| > 0 && IndicesFit(olds, |before|)
    ensures At(before, olds) == {before[olds[0]]} + At(before, olds[1..])
  {
    forall p
      ensures p in At(before, olds) <==> p == before[olds[0]] || p in At(before, olds[1..])
    {
      if p in At(before, olds) && p != before[olds[0]] {
        var k :| 0 <= k < |olds| && before[olds[k]] == p;
        assert before[olds[1..][k - 1]] == p;
      }
      if p in At(before, olds[1..]) {
        var k :| 0 <= k < |olds[1..]| && before[olds[1..][k]] == p;
        assert before[olds[k + 1]] == p;
      }
    }
  }

  lemma DetachOnly(k: Kernel, prior: Prog)
    ensures forall p | p in KDetach(k, prior).0.attached :: p in k.attached
  {
    WithoutIdSubset(k.attached, prior.id);
  }

  lemma {:induction false} WithoutIdSubset(progs: seq<Prog>, id: nat)
    ensures forall p | p in WithoutId(progs, id) :: p in progs
  {
    if |progs| > 0 {
      WithoutIdSubset(progs[1..], id);
    }
  }

  // --- Whole moves --------------------------------------------------------------------------------------------

  // The sets of programs attached on the way from `k` to `k'`, the last one included.
  function States(k: Kernel, k': Kernel): seq<seq<Prog>> {
    (if |k.trace| <= |k'.trace| then k'.trace[|k.trace|..] else []) + [k'.attached]
  }

  lemma StatesThen(k: Kernel, k1: Kernel, k2: Kernel, a: set<Prog>, b: set<Prog>, universe: set<Prog>, s: seq<Prog>)
    requires Ran(k, k1, a, universe) && Ran(k1, k2, b, universe) && s in States(k, k2)
    ensures s in States(k, k1) || s in States(k1, k2)
  {
    hide Within, OnlyTouches;
    var t :| 0 <= t < |States(k, k2)| && States(k, k2)[t] == s;
    if |k.trace| + t < |k1.trace| {
      assert k2.trace[|k.trace| + t] == k2.trace[..|k1.trace|][|k.trace| + t];
      assert States(k, k1)[t] == s;
    } else if t < |States(k, k2)| - 1 {
      assert States(k1, k2)[t + |k.trace| - |k1.trace|] == s;
    } else {
      assert States(k1, k2)[|States(k1, k2)| - 1] == s;
    }
  }

  lemma StateTouches(k: Kernel, k': Kernel, touched: set<Prog>, universe: set<Prog>, s: seq<Prog>)
    requires Ran(k, k', touched, universe) && s in States(k, k')
    ensures Within(s, universe) && OnlyTouches(k.attached, s, touched)
  {
    hide Within, OnlyTouches;
    var t :| 0 <= t < |States(k, k')| && States(k, k')[t] == s;
    if t < |States(k, k')| - 1 {
      assert k'.trace[|k.trace| + t] == s;
    }
  }

  lemma MoveStepsFit(move: Move, before: nat, load: nat, loads: nat)
    requires MoveFits(move, before, load, loads)
    ensures StepsFit(MoveSteps(move, load), before, loads)
  {
    if !move.Add? {
      DetachesFit(move.detached, before, loads);
    }
  }

  // What one job does, whatever call fails: only its own programs are touched, its lineage is
  // covered in every state, and when it succeeds exactly its result is left.
  ghost predicate Done(k: Kernel, k': Kernel, ok: bool, job: Job, universe: set<Prog>) {
    && Ran(k, k', job.Progs(), universe)
    && (forall s | s in States(k, k') :: job.Covered(s))
    && (ok ==> job.Settled(k'.attached))
    && (Unfailing(k) ==> ok && Unfailing(k'))
  }

  lemma KeepDone(k: Kernel, probe: Probe, before: seq<Prog>, progs: seq<Prog>, move: Move, load: nat, universe: set<Prog>)
    requires move.Keep? && MoveFits(move, |before|, load, |progs|)
    requires var job := JobOf(before, progs, move, load); job.Sound(universe) && job.Ready(k.attached)
    requires Within(k.attached, universe) && DistinctIds(universe)
    ensures StepsFit(MoveSteps(move, load), |before|, |progs|)
    ensures var (k', _, r) := ExecuteSteps(k, probe, before, progs, MoveSteps(move, load));
            Done(k, k', r.Success?, JobOf(before, progs, move, load), universe)
  {
    var job := JobOf(before, progs, move, load);
    DetachMany(k, probe, before, progs, move.detached, universe);
    var (k', _, r) := ExecuteSteps(k, probe, before, progs, Detaches(move.detached));
    hide Within, Ran, States, At, Detaches;
    RanMore(k, k', job.gone, job.Progs(), universe);
    StaysAttached(k, k', job.gone, universe, job.kept);
    forall s | s in States(k, k')
      ensures job.kept in s
    {
      StateTouches(k, k', job.gone, universe, s);
    }
  }

  lemma AddDone(k: Kernel, probe: Probe, before: seq<Prog>, progs: seq<Prog>, move: Move, load: nat, universe: set<Prog>)
    requires move.Add? && MoveFits(move, |before|, load, |progs|)
    requires var job := JobOf(before, progs, move, load); job.Sound(universe) && job.Ready(k.attached)
    requires Within(k.attached, universe) && DistinctIds(universe)
    ensures StepsFit(MoveSteps(move, load), |before|, |progs|)
    ensures var (k', _, r) := ExecuteSteps(k, probe, before, progs, MoveSteps(move, load));
            Done(k, k', r.Success?, JobOf(before, progs, move, load), universe)
  {
    AttachRan(k, progs[load], universe);
    hide Within, Ran, States, KAttach;
    var steps := MoveSteps(move, load);
    assert steps == [Attach(load)] && steps[1..] == [];
  }

  lemma ReplaceDone(k: Kernel, probe: Probe, before: seq<Prog>, progs: seq<Prog>, move: Move, load: nat, universe: set<Prog>)
    requires move.Replace? && MoveFits(move, |before|, load, |progs|)
    requires var job := JobOf(before, progs, move, load); job.Sound(universe) && job.Ready(k.attached)
    requires Within(k.attached, universe) && DistinctIds(universe)
    ensures StepsFit(MoveSteps(move, load), |before|, |progs|)
    ensures var (k', _, r) := ExecuteSteps(k, probe, before, progs, MoveSteps(move, load));
            Done(k, k', r.Success?, JobOf(before, progs, move, load), universe)
  {
    var job := JobOf(before, progs, move, load);
    MoveStepsFit(move, |before|, load, |progs|);
    SwapSwaps(k, probe, job.prior, job.loaded, universe);
    var (k1, probe1, r1) := Swap(k, probe, job.prior, job.loaded);
    var steps := MoveSteps(move, load);
    assert steps[0] == Pair(move.prior, load) && steps[1..] == Detaches(move.detached);
    ReplaceFirst(k, k1, job, universe);
    RanMore(k, k1, {job.prior, job.loaded}, job.Progs(), universe);
    if r1.Success? {
      RanWithin(k, k1, {job.prior, job.loaded}, universe);
      DetachMany(k1, probe1, before, progs, move.detached, universe);
      var (k2, _, r2) := ExecuteSteps(k1, probe1, before, progs, Detaches(move.detached));
      ReplaceRest(k, k1, k2, r2.Success?, job, universe);
    }
  }

  // While the new program is put in place, it or all the old ones are attached.
  lemma ReplaceFirst(k: Kernel, k1: Kernel, job: Job, universe: set<Prog>)
    requires job.ReplaceJob? && job.Sound(universe) && job.Ready(k.attached)
    requires Ran(k, k1, {job.prior, job.loaded}, universe) && Either(k, k1, job.prior, job.loaded)
    requires job.loaded in k1.attached || job.prior in k1.attached
    ensures forall s | s in States(k, k1) :: job.Covered(s)
  {
    forall s | s in States(k, k1)
      ensures job.Covered(s)
    {
      StateTouches(k, k1, {job.prior, job.loaded}, universe, s);
      assert job.loaded in s || job.prior in s by {
        var t :| 0 <= t < |States(k, k1)| && States(k, k1)[t] == s;
        if t < |States(k, k1)| - 1 {
          assert k1.trace[|k.trace| + t] == s;
        }
      }
      hide Within, Ran, States;
    }
  }

  // Once it is in place it stays, and the rest of the lineage goes.
  lemma ReplaceRest(k: Kernel, k1: Kernel, k2: Kernel, ok: bool, job: Job, universe: set<Prog>)
    requires job.ReplaceJob? && job.Sound(universe)
    requires Ran(k, k1, {job.prior, job.loaded}, universe) && job.loaded in k1.attached && job.prior !in k1.attached
    requires forall s | s in States(k, k1) :: job.Covered(s)
    requires Ran(k1, k2, job.gone, universe) && (ok ==> forall p | p in job.gone :: p !in k2.attached)
    requires (Unfailing(k) ==> Unfailing(k1)) && (Unfailing(k1) ==> ok && Unfailing(k2))
    ensures Done(k, k2, ok, job, universe)
  {
    hide Within, Ran, States;
    RanThen(k, k1, k2, {job.prior, job.loaded}, job.gone, universe);
    assert {job.prior, job.loaded} + job.gone == job.Progs();
    StaysAttached(k1, k2, job.gone, universe, job.loaded);
    StaysAttached(k1, k2, job.gone, universe, job.prior);
    forall s | s in States(k, k2)
      ensures job.Covered(s)
    {
      StatesThen(k, k1, k2, {job.prior, job.loaded}, job.gone, universe, s);
      if s in States(k1, k2) {
        StateTouches(k1, k2, job.gone, universe, s);
      }
    }
  }

  lemma ExecuteMove(k: Kernel, probe: Probe, before: seq<Prog>, progs: seq<Prog>, move: Move, load: nat, universe: set<Prog>)
    requires MoveFits(move, |before|, load, |progs|)
    requires var job := JobOf(before, progs, move, load); job.Sound(universe) && job.Ready(k.attached)
    requires Within(k.attached, universe) && DistinctIds(universe)
    ensures StepsFit(MoveSteps(move, load), |before|, |progs|)
    ensures var (k', _, r) := ExecuteSteps(k, probe, before, progs, MoveSteps(move, load));
            Done(k, k', r.Success?, JobOf(before, progs, move, load), universe)
  {
    hide Done, Within, DistinctIds, MoveSteps, JobOf;
    match move
    case Keep(_, _, _) => KeepDone(k, probe, before, progs, move, load, universe);
    case Replace(_, _, _, _) => ReplaceDone(k, probe, before, progs, move, load, universe);
    case Add(_, _) => AddDone(k, probe, before, progs, move, load, universe);
  }

  // --- Lists of jobs ------------------------------------------------------------------------------------------

  predicate MovesFit(moves: seq<Move>, before: nat, load: nat, loads: nat) {
    |moves| == 0 || (MoveFits(moves[0], before, load, loads) && MovesFit(moves[1..], before, load + |MoveLoads(moves[0])|, loads))
  }

  function JobsOf(before: seq<Prog>, progs: seq<Prog>, moves: seq<Move>, load: nat): (jobs: seq<Job>)
    requires MovesFit(moves, |before|, load, |progs|)
    ensures |jobs| == |moves|
  {
    if |moves| == 0 then []
    else [JobOf(before, progs, moves[0], load)] + JobsOf(before, progs, moves[1..], load + |MoveLoads(moves[0])|)
  }

  // Every job is sound, and no two work on the same program.
  ghost predicate AllSound(jobs: seq<Job>, universe: set<Prog>) {
    && (forall i | 0 <= i < |jobs| :: jobs[i].Sound(universe))
    && forall i, j | 0 <= i < j < |jobs| :: jobs[i].Progs() !! jobs[j].Progs()
  }

  ghost predicate AllReady(jobs: seq<Job>, progs: seq<Prog>) {
    forall i | 0 <= i < |jobs| :: jobs[i].Ready(progs)
  }

  ghost predicate AllCovered(jobs: seq<Job>, progs: seq<Prog>) {
    forall i | 0 <= i < |jobs| :: jobs[i].Covered(progs)
  }

  ghost predicate AllSettled(jobs: seq<Job>, progs: seq<Prog>) {
    forall i | 0 <= i < |jobs| :: jobs[i].Settled(progs)
  }

  function AllProgs(jobs: seq<Job>): (r: set<Prog>)
    ensures forall i | 0 <= i < |jobs| :: jobs[i].Progs() <= r
    ensures forall p | p in r :: exists i | 0 <= i < |jobs| :: p in jobs[i].Progs()
  {
    if |jobs| == 0 then {} else
      assert forall i | 1 <= i < |jobs| :: jobs[i] == jobs[1..][i - 1];
      jobs[0].Progs() + AllProgs(jobs[1..])
  }

  // What executing a list of jobs does, whatever call fails.
  ghost predicate AllDone(k: Kernel, k': Kernel, ok: bool, jobs: seq<Job>, universe: set<Prog>) {
    && Ran(k, k', AllProgs(jobs), universe)
    && (forall s | s in States(k, k') :: AllCovered(jobs, s))
    && (ok ==> AllSettled(jobs, k'.attached))
    && (Unfailing(k) ==> ok && Unfailing(k'))
  }

  lemma SoundTail(jobs: seq<Job>, universe: set<Prog>)
    requires |jobs| > 0 && AllSound(jobs, universe)
    ensures AllSound(jobs[1..], universe) && jobs[0].Progs() !! AllProgs(jobs[1..])
  {
    var rest := jobs[1..];
    assert forall i | 0 <= i < |rest| :: rest[i] == jobs[i + 1];
    forall p | p in AllProgs(rest)
      ensures p !in jobs[0].Progs()
    {
      var i :| 0 <= i < |rest| && p in rest[i].Progs();
      assert jobs[0].Progs() !! jobs[i + 1].Progs();
    }
  }

  // A job whose programs are not touched stays as it was.
  lemma UntouchedReady(job: Job, start: seq<Prog>, progs: seq<Prog>, touched: set<Prog>)
    requires OnlyTouches(start, progs, touched) && job.Progs() !! touched && job.Ready(start)
    ensures job.Ready(progs) && job.Covered(progs)
  {
  }

  lemma UntouchedSettled(job: Job, start: seq<Prog>, progs: seq<Prog>, touched: set<Prog>)
    requires OnlyTouches(start, progs, touched) && job.Progs() !! touched && job.Settled(start)
    ensures job.Settled(progs) && job.Covered(progs)
  {
    assert job.Result() in job.Progs();
  }

  lemma TailReady(k: Kernel, k': Kernel, jobs: seq<Job>, universe: set<Prog>, touched: set<Prog>, s: seq<Prog>)
    requires AllReady(jobs, k.attached) && Ran(k, k', touched, universe) && s in States(k, k')
    requires touched !! AllProgs(jobs)
    ensures AllReady(jobs, s) && AllCovered(jobs, s)
  {
    StateTouches(k, k', touched, universe, s);
    hide Within, Ran, States;
    forall i | 0 <= i < |jobs|
      ensures jobs[i].Ready(s) && jobs[i].Covered(s)
    {
      UntouchedReady(jobs[i], k.attached, s, touched);
    }
  }

  lemma CoveredCons(jobs: seq<Job>, s: seq<Prog>)
    requires |jobs| > 0 && jobs[0].Covered(s) && AllCovered(jobs[1..], s)
    ensures AllCovered(jobs, s)
  {
    assert forall i | 1 <= i < |jobs| :: jobs[i] == jobs[1..][i - 1];
  }

  // After the first job the others are still to be done, and everything is covered so far.
  lemma AfterFirst(k: Kernel, k1: Kernel, ok: bool, jobs: seq<Job>, universe: set<Prog>)
    requires |jobs| > 0 && AllSound(jobs, universe) && AllReady(jobs[1..], k.attached)
    requires Done(k, k1, ok, jobs[0], universe)
    ensures Within(k1.attached, universe) && AllReady(jobs[1..], k1.attached)
    ensures Ran(k, k1, AllProgs(jobs), universe)
    ensures forall s | s in States(k, k1) :: AllCovered(jobs, s)
  {
    SoundTail(jobs, universe);
    hide Within, Ran, AllSound, AllReady, AllCovered;
    var touched := jobs[0].Progs();
    RanWithin(k, k1, touched, universe);
    RanMore(k, k1, touched, AllProgs(jobs), universe);
    LastState(k, k1);
    TailReady(k, k1, jobs[1..], universe, touched, k1.attached);
    forall s | s in States(k, k1)
      ensures AllCovered(jobs, s)
    {
      TailReady(k, k1, jobs[1..], universe, touched, s);
      CoveredCons(jobs, s);
    }
  }

  lemma AfterRest(k: Kernel, k1: Kernel, k2: Kernel, ok: bool, jobs: seq<Job>, universe: set<Prog>)
    requires |jobs| > 0 && AllSound(jobs, universe)
    requires Done(k, k1, true, jobs[0], universe)
    requires forall s | s in States(k, k1) :: AllCovered(jobs, s)
    requires AllDone(k1, k2, ok, jobs[1..], universe)
    ensures AllDone(k, k2, ok, jobs, universe)
  {
    hide *;
    SoundTail(jobs, universe);
    var first, others := jobs[0].Progs(), AllProgs(jobs[1..]);
    FirstDone(k, k1, jobs[0], universe);
    RestDone(k1, k2, ok, jobs[1..], universe);
    RanThen(k, k1, k2, first, others, universe);
    forall s | s in States(k, k2)
      ensures AllCovered(jobs, s)
    {
      StatesThen(k, k1, k2, first, others, universe, s);
      if s in States(k1, k2) {
        StateTouches(k1, k2, others, universe, s);
        UntouchedSettled(jobs[0], k1.attached, s, others);
        CoveredCons(jobs, s);
      }
    }
    LastState(k1, k2);
    StateTouches(k1, k2, others, universe, k2.attached);
    UntouchedSettled(jobs[0], k1.attached, k2.attached, others);
    AllDoneAgain(k, k2, ok, jobs, universe);
  }

  lemma FirstDone(k: Kernel, k1: Kernel, job: Job, universe: set<Prog>)
    requires Done(k, k1, true, job, universe)
    ensures Ran(k, k1, job.Progs(), universe) && job.Settled(k1.attached) && (Unfailing(k) ==> Unfailing(k1))
  {
  }

  lemma RestDone(k: Kernel, k': Kernel, ok: bool, jobs: seq<Job>, universe: set<Prog>)
    requires AllDone(k, k', ok, jobs, universe)
    ensures Ran(k, k', AllProgs(jobs), universe) && (ok ==> AllSettled(jobs, k'.attached)) && (Unfailing(k) ==> ok && Unfailing(k'))
    ensures forall s | s in States(k, k') :: AllCovered(jobs, s)
  {
  }

  lemma AllDoneAgain(k: Kernel, k': Kernel, ok: bool, jobs: seq<Job>, universe: set<Prog>)
    requires |jobs| > 0 && Ran(k, k', jobs[0].Progs() + AllProgs(jobs[1..]), universe)
    requires forall s | s in States(k, k') :: AllCovered(jobs, s)
    requires jobs[0].Settled(k'.attached) && (ok ==> AllSettled(jobs[1..], k'.attached)) && (Unfailing(k) ==> ok && Unfailing(k'))
    ensures AllDone(k, k', ok, jobs, universe)
  {
    hide Ran, AllCovered, States;
    assert AllProgs(jobs) == jobs[0].Progs() + AllProgs(jobs[1..]);
    assert forall i | 1 <= i < |jobs| :: jobs[i] == jobs[1..][i - 1];
  }

  lemma LastState(k: Kernel, k': Kernel)
    ensures k'.attached in States(k, k')
  {
    assert States(k, k')[|States(k, k')| - 1] == k'.attached;
  }

  // Executing a rendered list of moves.
  lemma {:induction false} ExecuteMoves(k: Kernel, probe: Probe, before: seq<Prog>, progs: seq<Prog>, moves: seq<Move>,
                                        load: nat, universe: set<Prog>)
    requires MovesFit(moves, |before|, load, |progs|)
    requires var jobs := JobsOf(before, progs, moves, load); AllSound(jobs, universe) && AllReady(jobs, k.attached)
    requires Within(k.attached, universe) && DistinctIds(universe)
    ensures StepsFit(Render(moves, load).steps, |before|, |progs|)
    ensures var (k', _, r) := ExecuteSteps(k, probe, before, progs, Render(moves, load).steps);
            AllDone(k, k', r.Success?, JobsOf(before, progs, moves, load), universe)
    decreases |moves|
  {
    var jobs := JobsOf(before, progs, moves, load);
    if |moves| == 0 {
      assert Ran(k, k, AllProgs(jobs), universe);
    } else {
      var move, rest, next := moves[0], moves[1..], load + |MoveLoads(moves[0])|;
      FirstJob(k, before, progs, moves, load, universe);
      assert Render(moves, load).steps == MoveSteps(move, load) + Render(rest, next).steps;
      SoundTail(jobs, universe);
      hide Within, Ran, States, AllSound, AllReady, AllCovered, AllSettled, AllProgs, MoveSteps, Render, JobOf, JobsOf,
           ExecuteSteps, DistinctIds, StepsFit, Done, AllDone;
      ExecuteMove(k, probe, before, progs, move, load, universe);
      var (k1, probe1, r1) := ExecuteSteps(k, probe, before, progs, MoveSteps(move, load));
      AfterFirst(k, k1, r1.Success?, jobs, universe);
      ExecuteMoves(k1, probe1, before, progs, rest, next, universe);
      ExecuteSplit(k, probe, before, progs, MoveSteps(move, load), Render(rest, next).steps);
      DoneUnfailing(k, k1, r1.Success?, jobs[0], universe);
      if r1.Success? {
        var (k2, _, r2) := ExecuteSteps(k1, probe1, before, progs, Render(rest, next).steps);
        AfterRest(k, k1, k2, r2.Success?, jobs, universe);
      } else {
        StoppedFirst(k, k1, jobs, universe);
      }
    }
  }

  lemma FirstJob(k: Kernel, before: seq<Prog>, progs: seq<Prog>, moves: seq<Move>, load: nat, universe: set<Prog>)
    requires |moves| > 0 && MovesFit(moves, |before|, load, |progs|)
    requires var jobs := JobsOf(before, progs, moves, load); AllSound(jobs, universe) && AllReady(jobs, k.attached)
    ensures var jobs, next := JobsOf(before, progs, moves, load), load + |MoveLoads(moves[0])|;
            && MovesFit(moves[1..], |before|, next, |progs|)
            && jobs[0] == JobOf(before, progs, moves[0], load) && jobs[1..] == JobsOf(before, progs, moves[1..], next)
            && jobs[0].Sound(universe) && jobs[0].Ready(k.attached) && AllReady(jobs[1..], k.attached)
  {
    var jobs := JobsOf(before, progs, moves, load);
    hide JobOf;
    assert forall i | 0 <= i < |moves| - 1 :: jobs[1..][i] == jobs[i + 1];
  }

  lemma DoneUnfailing(k: Kernel, k': Kernel, ok: bool, job: Job, universe: set<Prog>)
    requires Done(k, k', ok, job, universe)
    ensures Unfailing(k) ==> ok && Unfailing(k')
  {
  }

  lemma StoppedFirst(k: Kernel, k1: Kernel, jobs: seq<Job>, universe: set<Prog>)
    requires Ran(k, k1, AllProgs(jobs), universe)
    requires forall s | s in States(k, k1) :: AllCovered(jobs, s)
    requires !Unfailing(k)
    ensures AllDone(k, k1, false, jobs, universe)
  {
  }
}
