/**
 Who may transmit: the two locks around a pass of `sync_broker_account`, the book of each process, and
 the licence a fast pass needs, over every interleaving of passes, processes, audits and crashes.
 */
module FastPath {
  import opened Common
  import Book

  /** A pass asks the book, waits for its process's connection lock, takes the sweep lock, asks again
      when it is fast, and then reconciles. `marks` is how much history its last question had seen. */
  datatype Phase = Starting | Queued | Threaded | Swept | Reconciling(marks: nat) | Ended

  /** `owner` is what an audit was told before the lock: the fast path owns the connection. */
  datatype Pass = Pass(proc: nat, fast: bool, owner: bool, phase: Phase)

  /** What happened to the licence of one process's book, oldest first. */
  datatype Mark = Audited(at: int) | Drifted | FillRecovered | OverdueSeen

  datatype Process = Process(book: Book.State, lock: Option<nat>, history: seq<Mark>)

  /** `postgres` tells whether the database has advisory locks; `sweep` is the pass holding the
      connection's one. */
  datatype World = World(now: int, postgres: bool, procs: seq<Process>, sweep: Option<nat>, passes: seq<Pass>)

  datatype Event =
    | Tick(t: int)
    | Begin(proc: nat, fast: bool)
    | Ask(p: nat)
    | TakeThread(p: nat)
    | TakeSweep(p: nat, broken: bool)
    | Enter(p: nat)
    | Audit(p: nat, positions: map<string, int>, fetched: seq<Book.BookOrder>, drift: string)
    | RecoverFill(p: nat, reason: string)
    | Churn(proc: nat, book: Book.State)
    | Finish(p: nat)
    | Crash(proc: nat)

  const OVERDUE := "inflight order unacked"

  function Fresh(): Process { Process(Book.EMPTY, None, []) }

  function Start(postgres: bool, n: nat, now: int): World {
    World(now, postgres, seq(n, _ => Fresh()), None, [])
  }

  predicate At(w: World, p: nat, f: Phase) { p < |w.passes| && w.passes[p].proc < |w.procs| && w.passes[p].phase == f }

  predicate InReconcile(w: World, p: nat) {
    p < |w.passes| && w.passes[p].proc < |w.procs| && w.passes[p].phase.Reconciling?
  }

  predicate HoldsThread(f: Phase) { f.Threaded? || f.Swept? || f.Reconciling? }

  predicate HoldsSweep(f: Phase) { f.Swept? || f.Reconciling? }

  /** Asking a book leaves a mark exactly when it froze on the spot. */
  function Asked(q: Process, now: int): Process {
    var b := Book.AfterAsking(q.book, now, OVERDUE);
    q.(book := b, history := if b.frozen != q.book.frozen then q.history + [OverdueSeen] else q.history)
  }

  function Licensed(q: Process, now: int): bool { Book.FastPathOk(q.book, now) }

  predicate Possible(w: World, e: Event) {
    match e
    case Tick(t) => t >= w.now
    case Begin(proc, _) => proc < |w.procs|
    case Ask(p) => At(w, p, Starting)
    case TakeThread(p) => At(w, p, Queued) && w.procs[w.passes[p].proc].lock.None?
    case TakeSweep(p, _) => At(w, p, Threaded)
    case Enter(p) => At(w, p, Swept)
    case Audit(p, _, _, _) => InReconcile(w, p) && !w.passes[p].fast
    // before it gives its locks back, a pass that is not fast may find a fill of an earlier day's order
    case RecoverFill(p, reason) => InReconcile(w, p) && !w.passes[p].fast && reason != ""
    // submits, acknowledgements, cancels and fills touch neither the freeze nor the audit time
    case Churn(proc, b) =>
      proc < |w.procs| && b.frozen == w.procs[proc].book.frozen && b.reconciledAt == w.procs[proc].book.reconciledAt
    case Finish(p) => p < |w.passes| && w.passes[p].proc < |w.procs|
    case Crash(proc) => proc < |w.procs|
  }

  /** Ends a pass and gives back what it holds. */
  function Release(w: World, p: nat): World
    requires p < |w.passes| && w.passes[p].proc < |w.procs|
  {
    var x := w.passes[p];
    w.(passes := w.passes[p := x.(phase := Ended)],
       sweep := if w.sweep == Some(p) then None else w.sweep,
       procs := if HoldsThread(x.phase) then w.procs[x.proc := w.procs[x.proc].(lock := None)] else w.procs)
  }

  function EndAll(passes: seq<Pass>, proc: nat): seq<Pass> {
    seq(|passes|, i requires 0 <= i < |passes| =>
      if passes[i].proc == proc then passes[i].(phase := Ended) else passes[i])
  }

  function Step(w: World, e: Event): World
    requires Possible(w, e)
  {
    match e
    case Tick(t) => w.(now := t)
    case Begin(proc, fast) => w.(passes := w.passes + [Pass(proc, fast, false, Starting)])
    case Ask(p) =>
      var x := w.passes[p];
      var ok := Licensed(w.procs[x.proc], w.now);
      var w1 := w.(procs := w.procs[x.proc := Asked(w.procs[x.proc], w.now)]);
      if x.fast && !ok then w1.(passes := w.passes[p := x.(phase := Ended)])
      else w1.(passes := w.passes[p := x.(phase := Queued, owner := !x.fast && ok)])
    case TakeThread(p) =>
      var x := w.passes[p];
      w.(procs := w.procs[x.proc := w.procs[x.proc].(lock := Some(p))], passes := w.passes[p := x.(phase := Threaded)])
    case TakeSweep(p, broken) =>
      if broken || (w.postgres && w.sweep.Some?) then Release(w, p)
      else w.(passes := w.passes[p := w.passes[p].(phase := Swept)], sweep := if w.postgres then Some(p) else w.sweep)
    case Enter(p) =>
      var x := w.passes[p];
      if !x.fast then w.(passes := w.passes[p := x.(phase := Reconciling(|w.procs[x.proc].history|))])
      else
        var w1 := w.(procs := w.procs[x.proc := Asked(w.procs[x.proc], w.now)]);
        if Licensed(w.procs[x.proc], w.now)
        then w1.(passes := w.passes[p := x.(phase := Reconciling(|w.procs[x.proc].history|))])
        else Release(w1, p)
    case Audit(p, positions, fetched, drift) =>
      var q := w.procs[w.passes[p].proc];
      var b := Book.AfterAudit(q.book, w.now, positions, fetched);
      var audited := q.(book := b, history := q.history + [Audited(w.now)]);
      // the drift verdict comes after the audit has been applied, and only an owner's audit gives one
      var judged := if w.passes[p].owner && drift != ""
                    then audited.(book := Book.AfterFreeze(b, drift), history := audited.history + [Drifted])
                    else audited;
      w.(procs := w.procs[w.passes[p].proc := judged])
    case RecoverFill(p, reason) =>
      var q := w.procs[w.passes[p].proc];
      w.(procs := w.procs[w.passes[p].proc := q.(book := Book.AfterFreeze(q.book, reason),
                                                 history := q.history + [FillRecovered])])
    case Churn(proc, b) => w.(procs := w.procs[proc := w.procs[proc].(book := b)])
    case Finish(p) => Release(w, p)
    case Crash(proc) =>
      w.(procs := w.procs[proc := Fresh()], passes := EndAll(w.passes, proc),
         sweep := if w.sweep.Some? && w.sweep.value < |w.passes| && w.passes[w.sweep.value].proc == proc
                  then None else w.sweep)
  }

  ghost predicate IsRun(w: World, es: seq<Event>)
    decreases |es|
  {
    es == [] || (Possible(w, es[0]) && IsRun(Step(w, es[0]), es[1..]))
  }

  ghost function After(w: World, es: seq<Event>): World
    requires IsRun(w, es)
    decreases |es|
  {
    if es == [] then w else After(Step(w, es[0]), es[1..])
  }

  // ------------------------------------------------------------------ the invariant

  /** The locks say what the passes say. */
  ghost predicate LocksOk(w: World) {
    && (forall p :: 0 <= p < |w.passes| ==> w.passes[p].proc < |w.procs|)
    && (forall p :: 0 <= p < |w.passes| && HoldsThread(w.passes[p].phase) ==> w.procs[w.passes[p].proc].lock == Some(p))
    && (w.postgres ==> forall p :: 0 <= p < |w.passes| && HoldsSweep(w.passes[p].phase) ==> w.sweep == Some(p))
  }

  predicate AuditIsLast(h: seq<Mark>) { h != [] && h[|h| - 1].Audited? }

  /** A book is unfrozen exactly while an audit is the last thing that happened to its licence, and it
      remembers the time of that audit. */
  ghost predicate BookOk(q: Process, now: int) {
    && (q.book.frozen == "" <==> AuditIsLast(q.history))
    && (AuditIsLast(q.history) ==>
          q.history[|q.history| - 1] == Audited(q.book.reconciledAt) && q.book.reconciledAt <= now)
  }

  /** Since it was let in, a fast pass has seen no audit and no freeze but for overdue orders. */
  ghost predicate EnteredClean(h: seq<Mark>, marks: nat) {
    && 0 < marks <= |h| && h[marks - 1].Audited?
    && forall i :: marks <= i < |h| ==> h[i] == OverdueSeen
  }

  ghost predicate PassesOk(w: World) {
    forall p :: 0 <= p < |w.passes| && w.passes[p].fast && w.passes[p].phase.Reconciling? ==>
                  w.passes[p].proc < |w.procs|
                  && EnteredClean(w.procs[w.passes[p].proc].history, w.passes[p].phase.marks)
  }

  ghost predicate Inv(w: World) {
    && LocksOk(w) && PassesOk(w)
    && forall q :: 0 <= q < |w.procs| ==> BookOk(w.procs[q], w.now)
  }

  lemma AskedIsOk(q: Process, now: int)
    requires BookOk(q, now)
    ensures BookOk(Asked(q, now), now)
    ensures Asked(q, now).lock == q.lock
    ensures Asked(q, now).history == q.history || Asked(q, now).history == q.history + [OverdueSeen]
    ensures Licensed(q, now) ==> Asked(q, now) == q && q.book.frozen == ""
  {}

  lemma ReleaseKeeps(w: World, p: nat)
    requires Inv(w) && p < |w.passes|
    ensures Inv(Release(w, p))
  {
    var w' := Release(w, p);
    forall r | 0 <= r < |w'.passes| && HoldsThread(w'.passes[r].phase)
      ensures w'.procs[w'.passes[r].proc].lock == Some(r)
    {
      assert r != p && w.passes[r] == w'.passes[r];
    }
  }

  /** Asking changes at most one process, and only by an overdue mark. */
  lemma AskingKeeps(w: World, i: nat, q: Process)
    requires Inv(w) && i < |w.procs| && q == Asked(w.procs[i], w.now)
    ensures Inv(w.(procs := w.procs[i := q]))
  {
    AskedIsOk(w.procs[i], w.now);
    var w' := w.(procs := w.procs[i := q]);
    assert LocksOk(w');
    forall p | 0 <= p < |w.passes| && w.passes[p].fast && w.passes[p].phase.Reconciling?
      ensures EnteredClean(w'.procs[w.passes[p].proc].history, w.passes[p].phase.marks)
    {
      assert EnteredClean(w.procs[w.passes[p].proc].history, w.passes[p].phase.marks);
    }
  }

  /** A pass may move on: `f` holds no lock that the pass does not have. */
  lemma MovingKeeps(w: World, p: nat, x: Pass)
    requires Inv(w) && p < |w.passes| && x.proc == w.passes[p].proc
    requires HoldsThread(x.phase) ==> w.procs[x.proc].lock == Some(p)
    requires w.postgres && HoldsSweep(x.phase) ==> w.sweep == Some(p)
    requires x.fast && x.phase.Reconciling? ==> EnteredClean(w.procs[x.proc].history, x.phase.marks)
    ensures Inv(w.(passes := w.passes[p := x]))
  {}

  lemma AskKeeps(w: World, p: nat)
    requires Inv(w) && Possible(w, Ask(p))
    ensures Inv(Step(w, Ask(p)))
  {
    var x := w.passes[p];
    AskingKeeps(w, x.proc, Asked(w.procs[x.proc], w.now));
    var w1 := w.(procs := w.procs[x.proc := Asked(w.procs[x.proc], w.now)]);
    MovingKeeps(w1, p, x.(phase := Ended));
    MovingKeeps(w1, p, x.(phase := Queued, owner := !x.fast && Licensed(w.procs[x.proc], w.now)));
  }

  lemma EnterKeeps(w: World, p: nat)
    requires Inv(w) && Possible(w, Enter(p))
    ensures Inv(Step(w, Enter(p)))
  {
    var x := w.passes[p];
    var q := w.procs[x.proc];
    var x' := x.(phase := Reconciling(|q.history|));
    if !x.fast {
      MovingKeeps(w, p, x');
    } else {
      var w1 := w.(procs := w.procs[x.proc := Asked(q, w.now)]);
      AskingKeeps(w, x.proc, Asked(q, w.now));
      if Licensed(q, w.now) {
        AskedIsOk(q, w.now);
        assert BookOk(q, w.now);
        MovingKeeps(w1, p, x');
      } else {
        ReleaseKeeps(w1, p);
      }
    }
  }

  /** Only the pass holding its process's lock audits and recovers, so no fast pass of that process is
      reconciling. */
  lemma NoFastPassBeside(w: World, p: nat)
    requires Inv(w) && InReconcile(w, p) && !w.passes[p].fast
    ensures forall r :: 0 <= r < |w.passes| && w.passes[r].fast && w.passes[r].phase.Reconciling? ==>
                          w.passes[r].proc != w.passes[p].proc
  {
    forall r | 0 <= r < |w.passes| && w.passes[r].fast && w.passes[r].phase.Reconciling?
      ensures w.passes[r].proc != w.passes[p].proc
    {
      assert HoldsThread(w.passes[r].phase) && HoldsThread(w.passes[p].phase);
    }
  }

  lemma MarkingKeeps(w: World, p: nat, q: Process)
    requires Inv(w) && InReconcile(w, p) && !w.passes[p].fast
    requires q.lock == w.procs[w.passes[p].proc].lock && BookOk(q, w.now)
    ensures Inv(w.(procs := w.procs[w.passes[p].proc := q]))
  {
    var w' := w.(procs := w.procs[w.passes[p].proc := q]);
    NoFastPassBeside(w, p);
    assert LocksOk(w') && PassesOk(w');
  }

  lemma AuditKeeps(w: World, e: Event)
    requires Inv(w) && Possible(w, e) && (e.Audit? || e.RecoverFill?)
    ensures Inv(Step(w, e))
  {
    MarkingKeeps(w, e.p, Step(w, e).procs[w.passes[e.p].proc]);
  }

  lemma CrashKeeps(w: World, proc: nat)
    requires Inv(w) && Possible(w, Crash(proc))
    ensures Inv(Step(w, Crash(proc)))
  {
    var w' := Step(w, Crash(proc));
    forall r | 0 <= r < |w'.passes| && HoldsThread(w'.passes[r].phase)
      ensures w.passes[r] == w'.passes[r] && w.passes[r].proc != proc
    {}
  }

  /** A free lock is held by no pass, so taking it collides with nobody. */
  lemma TakingThreadKeeps(w: World, p: nat)
    requires Inv(w) && Possible(w, TakeThread(p))
    ensures Inv(Step(w, TakeThread(p)))
  {
    var w' := Step(w, TakeThread(p));
    assert LocksOk(w') && PassesOk(w');
  }

  lemma TakingSweepKeeps(w: World, p: nat, broken: bool)
    requires Inv(w) && Possible(w, TakeSweep(p, broken))
    ensures Inv(Step(w, TakeSweep(p, broken)))
  {
    ReleaseKeeps(w, p);
  }

  lemma BeginKeeps(w: World, e: Event)
    requires Inv(w) && Possible(w, e) && (e.Begin? || e.Tick?)
    ensures Inv(Step(w, e))
  {}

  lemma ChurnKeeps(w: World, e: Event)
    requires Inv(w) && Possible(w, e) && e.Churn?
    ensures Inv(Step(w, e))
  {
    assert BookOk(w.procs[e.proc], w.now);
  }

  lemma StepKeeps(w: World, e: Event)
    requires Inv(w) && Possible(w, e)
    ensures Inv(Step(w, e))
  {
    match e
    case Ask(p) => AskKeeps(w, p);
    case Enter(p) => EnterKeeps(w, p);
    case Audit(_, _, _, _) => AuditKeeps(w, e);
    case RecoverFill(_, _) => AuditKeeps(w, e);
    case TakeThread(p) => TakingThreadKeeps(w, p);
    case TakeSweep(p, broken) => TakingSweepKeeps(w, p, broken);
    case Begin(_, _) => BeginKeeps(w, e);
    case Churn(_, _) => ChurnKeeps(w, e);
    case Tick(_) => BeginKeeps(w, e);
    case Finish(p) => ReleaseKeeps(w, p);
    case Crash(proc) => CrashKeeps(w, proc);
  }

  lemma {:induction false} RunKeeps(w: World, es: seq<Event>)
    requires Inv(w) && IsRun(w, es)
    ensures Inv(After(w, es))
    decreases |es|
  {
    if es != [] {
      StepKeeps(w, es[0]);
      RunKeeps(Step(w, es[0]), es[1..]);
    }
  }

  // ------------------------------------------------------------------ what holds in every run

  /** Two passes that reconcile at the same time are one pass: always inside one process, and across
      processes whenever the database has advisory locks. */
  lemma PassesNeverOverlap(postgres: bool, n: nat, now: int, es: seq<Event>, p: nat, r: nat)
    requires IsRun(Start(postgres, n, now), es)
    requires InReconcile(After(Start(postgres, n, now), es), p) && InReconcile(After(Start(postgres, n, now), es), r)
    requires var w := After(Start(postgres, n, now), es); postgres || w.passes[p].proc == w.passes[r].proc
    ensures p == r
  {
    RunKeeps(Start(postgres, n, now), es);
    SameDatabase(Start(postgres, n, now), es);
    var w := After(Start(postgres, n, now), es);
    assert HoldsThread(w.passes[p].phase) && HoldsThread(w.passes[r].phase);
  }

  lemma {:induction false} SameDatabase(w: World, es: seq<Event>)
    requires IsRun(w, es)
    ensures After(w, es).postgres == w.postgres
    decreases |es|
  {
    if es != [] { SameDatabase(Step(w, es[0]), es[1..]); }
  }

  /** Every lock is held by a pass that is where it needs it. */
  ghost predicate NoLockLeaked(w: World) {
    && (forall q :: 0 <= q < |w.procs| && w.procs[q].lock.Some? ==>
                      var p := w.procs[q].lock.value;
                      p < |w.passes| && w.passes[p].proc == q && HoldsThread(w.passes[p].phase))
    && (w.sweep.Some? ==> w.sweep.value < |w.passes| && HoldsSweep(w.passes[w.sweep.value].phase))
  }

  lemma ReleaseLeaksNothing(w: World, p: nat)
    requires LocksOk(w) && NoLockLeaked(w) && p < |w.passes|
    ensures NoLockLeaked(Release(w, p))
  {}

  lemma CrashLeaksNothing(w: World, proc: nat)
    requires LocksOk(w) && NoLockLeaked(w) && proc < |w.procs|
    ensures NoLockLeaked(Step(w, Crash(proc)))
  {}

  lemma StepLeaksNothing(w: World, e: Event)
    requires LocksOk(w) && NoLockLeaked(w) && Possible(w, e)
    ensures NoLockLeaked(Step(w, e))
  {
    match e
    case Tick(_) =>
    case Begin(_, _) =>
    case Ask(p) => AskLeaksNothing(w, p);
    case TakeThread(p) => TakingLeaksNothing(w, e);
    case TakeSweep(p, broken) =>
      if broken || (w.postgres && w.sweep.Some?) { ReleaseLeaksNothing(w, p); } else { TakingLeaksNothing(w, e); }
    case Enter(p) => EnterLeaksNothing(w, p);
    case Audit(p, _, _, _) => BookLeaksNothing(w, w.passes[p].proc, Step(w, e).procs[w.passes[p].proc]);
    case RecoverFill(p, _) => BookLeaksNothing(w, w.passes[p].proc, Step(w, e).procs[w.passes[p].proc]);
    case Churn(proc, _) => BookLeaksNothing(w, proc, Step(w, e).procs[proc]);
    case Finish(p) => ReleaseLeaksNothing(w, p);
    case Crash(proc) => CrashLeaksNothing(w, proc);
  }

  lemma BookLeaksNothing(w: World, proc: nat, q: Process)
    requires NoLockLeaked(w) && proc < |w.procs| && q.lock == w.procs[proc].lock
    ensures NoLockLeaked(w.(procs := w.procs[proc := q]))
  {}

  lemma AskLeaksNothing(w: World, p: nat)
    requires NoLockLeaked(w) && Possible(w, Ask(p))
    ensures NoLockLeaked(Step(w, Ask(p)))
  {
    BookLeaksNothing(w, w.passes[p].proc, Asked(w.procs[w.passes[p].proc], w.now));
  }

  lemma TakingLeaksNothing(w: World, e: Event)
    requires NoLockLeaked(w) && Possible(w, e)
    requires e.TakeThread? || (e.TakeSweep? && !e.broken && !(w.postgres && w.sweep.Some?))
    ensures NoLockLeaked(Step(w, e))
  {}

  lemma EnterLeaksNothing(w: World, p: nat)
    requires LocksOk(w) && NoLockLeaked(w) && Possible(w, Enter(p))
    ensures NoLockLeaked(Step(w, Enter(p)))
  {
    var x := w.passes[p];
    var x' := x.(phase := Reconciling(|w.procs[x.proc].history|));
    if !x.fast {
      ReconcilingLeaksNothing(w, p, x');
    } else {
      var q := Asked(w.procs[x.proc], w.now);
      var w1 := w.(procs := w.procs[x.proc := q]);
      BookLeaksNothing(w, x.proc, q);
      BookKeepsLocks(w, x.proc, q);
      if Licensed(w.procs[x.proc], w.now) { ReconcilingLeaksNothing(w1, p, x'); } else { ReleaseLeaksNothing(w1, p); }
    }
  }

  lemma BookKeepsLocks(w: World, proc: nat, q: Process)
    requires LocksOk(w) && proc < |w.procs| && q.lock == w.procs[proc].lock
    ensures LocksOk(w.(procs := w.procs[proc := q]))
  {}

  lemma ReconcilingLeaksNothing(w: World, p: nat, x: Pass)
    requires NoLockLeaked(w) && p < |w.passes| && x.proc == w.passes[p].proc && x.phase.Reconciling?
    ensures NoLockLeaked(w.(passes := w.passes[p := x]))
  {}

  lemma {:induction false} RunLeaksNothing(w: World, es: seq<Event>)
    requires Inv(w) && NoLockLeaked(w) && IsRun(w, es)
    ensures NoLockLeaked(After(w, es))
    decreases |es|
  {
    if es != [] {
      StepKeeps(w, es[0]);
      StepLeaksNothing(w, es[0]);
      RunLeaksNothing(Step(w, es[0]), es[1..]);
    }
  }

  /** In every run, crashes and broken locks included, a process's lock is taken exactly while one of its passes
      holds it, and the sweep lock exactly while a pass holds that: whatever ends a pass gives both back. */
  lemma LocksAreHeldExactly(postgres: bool, n: nat, now: int, es: seq<Event>, p: nat)
    requires IsRun(Start(postgres, n, now), es) && p < |After(Start(postgres, n, now), es).passes|
    ensures var w := After(Start(postgres, n, now), es);
            && w.passes[p].proc < |w.procs|
            && (w.procs[w.passes[p].proc].lock == Some(p) <==> HoldsThread(w.passes[p].phase))
            && (w.postgres ==> (w.sweep == Some(p) <==> HoldsSweep(w.passes[p].phase)))
  {
    RunKeeps(Start(postgres, n, now), es);
    RunLeaksNothing(Start(postgres, n, now), es);
  }

  /** A pass asks before it waits: a fast one without the licence ends there, any other goes on, and an audit
      remembers whether the fast path owned the connection. */
  lemma AskExactly(w: World, p: nat)
    requires Possible(w, Ask(p))
    ensures var x, w' := w.passes[p], Step(w, Ask(p));
            var ok := Licensed(w.procs[x.proc], w.now);
            && |w'.passes| == |w.passes| && (forall r :: 0 <= r < |w.passes| && r != p ==> w'.passes[r] == w.passes[r])
            && (x.fast && !ok ==> w'.passes[p] == x.(phase := Ended))
            && (!x.fast || ok ==> w'.passes[p] == x.(phase := Queued, owner := !x.fast && ok))
  {}

  /** The sweep lock is got unless the database breaks or, with advisory locks, another pass has it. */
  lemma TakeSweepExactly(w: World, p: nat, broken: bool)
    requires Possible(w, TakeSweep(p, broken))
    ensures var x, w' := w.passes[p], Step(w, TakeSweep(p, broken));
            w'.passes[p].phase == if broken || (w.postgres && w.sweep.Some?) then Ended else Swept
  {}

  /** Behind both locks an audit reconciles, and a fast pass if it still has the licence. */
  lemma EnterExactly(w: World, p: nat)
    requires Possible(w, Enter(p))
    ensures var x, w' := w.passes[p], Step(w, Enter(p));
            && (w'.passes[p].phase.Reconciling? <==> !x.fast || Licensed(w.procs[x.proc], w.now))
            && (!w'.passes[p].phase.Reconciling? ==> w'.passes[p].phase.Ended?)
  {}

  /** A crash ends exactly the passes of its process and forgets its book. */
  lemma CrashExactly(w: World, proc: nat)
    requires Possible(w, Crash(proc))
    ensures var w' := Step(w, Crash(proc));
            && |w'.passes| == |w.passes| && |w'.procs| == |w.procs|
            && (forall r :: 0 <= r < |w.passes| ==>
                  w'.passes[r] == if w.passes[r].proc == proc then w.passes[r].(phase := Ended) else w.passes[r])
            && (forall q :: 0 <= q < |w.procs| ==> w'.procs[q] == if q == proc then Fresh() else w.procs[q])
  {}

  /** Exactly when the fast path is open: the last thing that happened to the book's licence is an audit not
      older than ninety seconds, so no drift, no recovered fill and no overdue order has frozen it since,
      and no order of ours has been unanswered for more than twenty. */
  lemma LicenceExactly(postgres: bool, n: nat, now: int, es: seq<Event>, q: nat)
    requires IsRun(Start(postgres, n, now), es) && q < |After(Start(postgres, n, now), es).procs|
    ensures var w := After(Start(postgres, n, now), es);
            var h := w.procs[q].history;
            Licensed(w.procs[q], w.now) <==>
              && AuditIsLast(h) && w.now - h[|h| - 1].at <= 90000
              && (forall x :: x in w.procs[q].book.inflight ==> w.now - x.1.at <= 20000)
    ensures var w := After(Start(postgres, n, now), es);
            var h := w.procs[q].history;
            AuditIsLast(h) ==> h[|h| - 1].at <= w.now
  {
    RunKeeps(Start(postgres, n, now), es);
    var w := After(Start(postgres, n, now), es);
    assert BookOk(w.procs[q], w.now);
    var inflight := w.procs[q].book.inflight;
    assert Book.Overdue(w.procs[q].book, w.now) <==> exists x :: x in inflight && w.now - x.1.at > 20000;
  }

  /** The verdict that stands: the last audit, drift or recovered fill. */
  function Verdict(h: seq<Mark>): Option<Mark> {
    if h == [] then None
    else if h[|h| - 1] != OverdueSeen then Some(h[|h| - 1])
    else Verdict(h[..|h| - 1])
  }

  lemma {:induction false} VerdictPastOverdue(h: seq<Mark>, n: nat)
    requires 0 < n <= |h| && h[n - 1] != OverdueSeen && forall i :: n <= i < |h| ==> h[i] == OverdueSeen
    ensures Verdict(h) == Some(h[n - 1])
    decreases |h|
  {
    if n < |h| { VerdictPastOverdue(h[..|h| - 1], n); }
  }

  /** A freeze for drift or for a recovered fill shuts the fast path until a later audit: while a fast pass
      reconciles, the standing verdict on its book is an audit, even if the freeze came while the pass was
      waiting for the lock. */
  lemma DriftShutsTheFastPath(postgres: bool, n: nat, now: int, es: seq<Event>, p: nat)
    requires IsRun(Start(postgres, n, now), es)
    requires var w := After(Start(postgres, n, now), es); InReconcile(w, p) && w.passes[p].fast
    ensures var w := After(Start(postgres, n, now), es);
            var v := Verdict(w.procs[w.passes[p].proc].history); v.Some? && v.value.Audited?
  {
    RunKeeps(Start(postgres, n, now), es);
    var w := After(Start(postgres, n, now), es);
    VerdictPastOverdue(w.procs[w.passes[p].proc].history, w.passes[p].phase.marks);
  }

  /** No audit of this process's book in the run. */
  ghost predicate NoAuditOf(w: World, es: seq<Event>, proc: nat)
    requires IsRun(w, es)
    decreases |es|
  {
    es == [] || ((es[0].Audit? ==> w.passes[es[0].p].proc != proc) && NoAuditOf(Step(w, es[0]), es[1..], proc))
  }

  lemma OtherStepsKeepFrozen(w: World, e: Event, proc: nat)
    requires Possible(w, e) && proc < |w.procs| && w.procs[proc].book.frozen != ""
    requires e.Audit? ==> w.passes[e.p].proc != proc
    ensures proc < |Step(w, e).procs| && Step(w, e).procs[proc].book.frozen != ""
  {}

  /** A frozen book stays shut through everything but an audit: other passes, fills, crashes and time. */
  lemma {:induction false} OnlyAnAuditReopens(w: World, es: seq<Event>, proc: nat)
    requires proc < |w.procs| && w.procs[proc].book.frozen != "" && IsRun(w, es) && NoAuditOf(w, es, proc)
    ensures proc < |After(w, es).procs| && forall t :: !Licensed(After(w, es).procs[proc], t)
    decreases |es|
  {
    if es != [] {
      OtherStepsKeepFrozen(w, es[0], proc);
      OnlyAnAuditReopens(Step(w, es[0]), es[1..], proc);
    }
  }

  /** What one auditing pass leaves of the licence: its audit opens the book, unless an owner found drift or
      an order is overdue; a fill it recovers after the audit shuts it again. Once shut, the book stays
      shut over every run until the next audit of this process. */
  lemma AuditDecidesTheLicence(w: World, e: Event, reason: string, es: seq<Event>)
    requires Possible(w, e) && e.Audit? && reason != ""
    ensures var x := w.passes[e.p];
            var w1 := Step(w, e);
            && (Licensed(w1.procs[x.proc], w.now) <==>
                  !(x.owner && e.drift != "") && !Book.Overdue(w1.procs[x.proc].book, w.now))
            && (x.owner && e.drift != "" && IsRun(w1, es) && NoAuditOf(w1, es, x.proc) ==>
                  x.proc < |After(w1, es).procs| && forall t :: !Licensed(After(w1, es).procs[x.proc], t))
    ensures var x := w.passes[e.p];
            var w1 := Step(w, e);
            Possible(w1, RecoverFill(e.p, reason))
            && var w2 := Step(w1, RecoverFill(e.p, reason));
               IsRun(w2, es) && NoAuditOf(w2, es, x.proc) ==>
                 x.proc < |After(w2, es).procs| && forall t :: !Licensed(After(w2, es).procs[x.proc], t)
  {
    var proc := w.passes[e.p].proc;
    var w1 := Step(w, e);
    if w1.procs[proc].book.frozen != "" && IsRun(w1, es) && NoAuditOf(w1, es, proc) {
      OnlyAnAuditReopens(w1, es, proc);
    }
    assert w1.passes == w.passes && InReconcile(w1, e.p);
    var w2 := Step(w1, RecoverFill(e.p, reason));
    if IsRun(w2, es) && NoAuditOf(w2, es, proc) { OnlyAnAuditReopens(w2, es, proc); }
  }

  /** Two passes of different processes, before either has any lock. */
  function BothQueued(now: int): World {
    World(now, false, [Fresh(), Fresh()], None, [Pass(0, false, false, Queued), Pass(1, false, false, Queued)])
  }

  /** The same two passes, each holding its own process's lock. */
  function BothThreaded(now: int): World {
    World(now, false, [Fresh().(lock := Some(0)), Fresh().(lock := Some(1))], None,
          [Pass(0, false, false, Threaded), Pass(1, false, false, Threaded)])
  }

  const BEGINNING: seq<Event> := [Begin(0, false), Begin(1, false)]
  const ASKING: seq<Event> := [Ask(0), Ask(1)]
  const LOCKING: seq<Event> := [TakeThread(0), TakeThread(1)]
  const SWEEPING: seq<Event> := [TakeSweep(0, false), TakeSweep(1, false), Enter(0), Enter(1)]

  /** The same two passes before they ask their books. */
  function BothStarting(now: int): World {
    World(now, false, [Fresh(), Fresh()], None, [Pass(0, false, false, Starting), Pass(1, false, false, Starting)])
  }

  lemma BothBegin(now: int)
    ensures IsRun(Start(false, 2, now), BEGINNING) && After(Start(false, 2, now), BEGINNING) == BothStarting(now)
  {
    var w1 := World(now, false, [Fresh(), Fresh()], None, [Pass(0, false, false, Starting)]);
    TwoFresh(now);
    OneBegins(now);
    assert Step(Start(false, 2, now), Begin(0, false)) == w1;
    Chain(Start(false, 2, now), Begin(0, false), [Begin(1, false)], w1, BothStarting(now));
    assert BEGINNING == [Begin(0, false)] + [Begin(1, false)];
  }

  lemma TwoFresh(now: int)
    ensures Start(false, 2, now) == World(now, false, [Fresh(), Fresh()], None, [])
  {}

  lemma OneBegins(now: int)
    ensures var w1 := World(now, false, [Fresh(), Fresh()], None, [Pass(0, false, false, Starting)]);
            IsRun(w1, [Begin(1, false)]) && After(w1, [Begin(1, false)]) == BothStarting(now)
  {
    var w1 := World(now, false, [Fresh(), Fresh()], None, [Pass(0, false, false, Starting)]);
    assert Step(w1, Begin(1, false)) == BothStarting(now);
    Chain(w1, Begin(1, false), [], BothStarting(now), BothStarting(now));
    assert [Begin(1, false)] + [] == [Begin(1, false)];
  }

  lemma BothAsk(now: int)
    ensures IsRun(BothStarting(now), ASKING) && After(BothStarting(now), ASKING) == BothQueued(now)
  {
    assert Asked(Fresh(), now) == Fresh() && !Licensed(Fresh(), now);
    var w := BothStarting(now);
    var w1 := w.(passes := [Pass(0, false, false, Queued), w.passes[1]]);
    Chain(w1, Ask(1), [], BothQueued(now), BothQueued(now));
    Chain(w, Ask(0), ASKING[1..], w1, BothQueued(now));
  }

  lemma BothLock(now: int)
    ensures IsRun(BothQueued(now), LOCKING) && After(BothQueued(now), LOCKING) == BothThreaded(now)
  {
    var w := BothQueued(now);
    var w1 := World(now, false, [Fresh().(lock := Some(0)), Fresh()], None,
                    [Pass(0, false, false, Threaded), w.passes[1]]);
    Chain(w1, TakeThread(1), [], BothThreaded(now), BothThreaded(now));
    Chain(w, TakeThread(0), LOCKING[1..], w1, BothThreaded(now));
  }

  lemma BothSweep(now: int)
    ensures IsRun(BothThreaded(now), SWEEPING)
    ensures InReconcile(After(BothThreaded(now), SWEEPING), 0) && InReconcile(After(BothThreaded(now), SWEEPING), 1)
  {
    var w := BothThreaded(now);
    var a, b := w.passes[0], w.passes[1];
    var w1 := w.(passes := [a.(phase := Swept), b]);
    var w2 := w.(passes := [a.(phase := Swept), b.(phase := Swept)]);
    var w3 := w.(passes := [a.(phase := Reconciling(0)), b.(phase := Swept)]);
    var end := w.(passes := [a.(phase := Reconciling(0)), b.(phase := Reconciling(0))]);
    Chain(w3, Enter(1), [], end, end);
    Chain(w2, Enter(0), SWEEPING[3..], w3, end);
    Chain(w1, TakeSweep(1, false), SWEEPING[2..], w2, end);
    Chain(w, TakeSweep(0, false), SWEEPING[1..], w1, end);
  }

  /** Without advisory locks two processes sweep one account at the same time. */
  lemma WithoutAdvisoryLocksSweepsOverlap(now: int)
    ensures var end := BEGINNING + (ASKING + (LOCKING + SWEEPING));
            IsRun(Start(false, 2, now), end) && InReconcile(After(Start(false, 2, now), end), 0)
            && InReconcile(After(Start(false, 2, now), end), 1)
  {
    BothBegin(now);
    BothAsk(now);
    BothLock(now);
    BothSweep(now);
    Joined(BothQueued(now), LOCKING, SWEEPING);
    Joined(BothStarting(now), ASKING, LOCKING + SWEEPING);
    Joined(Start(false, 2, now), BEGINNING, ASKING + (LOCKING + SWEEPING));
  }

  lemma {:induction false} Joined(w: World, a: seq<Event>, b: seq<Event>)
    requires IsRun(w, a) && IsRun(After(w, a), b)
    ensures IsRun(w, a + b) && After(w, a + b) == After(After(w, a), b)
    decreases |a|
  {
    if a == [] {
      assert a + b == b;
    } else {
      Joined(Step(w, a[0]), a[1..], b);
      assert (a + b)[1..] == a[1..] + b;
    }
  }

  lemma Chain(w: World, e: Event, es: seq<Event>, next: World, end: World)
    requires Possible(w, e) && Step(w, e) == next && IsRun(next, es) && After(next, es) == end
    ensures IsRun(w, [e] + es) && After(w, [e] + es) == end
  {
    assert ([e] + es)[1..] == es;
  }
}
