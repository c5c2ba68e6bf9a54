/** The write gate of internal/server/event_writes.go: a completion report is held back until every file it wrote has
    been confirmed, or until its timer expires.  Each critical section is one step. */
module WriteGate {

  /* ---- The gate as a value ---- */

  /** A live wait: which registration it holds and the paths still missing. */
  datatype Wait = Wait(reg: nat, remaining: set<string>)

  /** Registrations are numbered in order of arrival, `next` being the next number; `fired` logs the callbacks
      released. */
  datatype Gate = Gate(waits: map<string, Wait>, early: map<string, set<string>>, fired: seq<nat>, next: nat)

  const EMPTY_GATE := Gate(map[], map[], [], 0)

  datatype GateEvent =
    | Registered(run: string, paths: seq<string>)
    | Written(run: string, path: string)
    | Expired(run: string, reg: nat)

  function NonBlank(paths: seq<string>): set<string> {
    set p | p in paths && p != ""
  }

  function Fire(g: Gate, run: string): Gate
    requires run in g.waits
  {
    g.(waits := g.waits - {run}, fired := g.fired + [g.waits[run].reg])
  }

  /** The callback of the next registration starts at once. */
  function RunNow(g: Gate): Gate {
    g.(fired := g.fired + [g.next], next := g.next + 1)
  }

  /** The callback of the next registration waits for `remaining`. */
  function Hold(g: Gate, run: string, remaining: set<string>): Gate {
    g.(waits := g.waits[run := Wait(g.next, remaining)], next := g.next + 1)
  }

  /** The next registration, once the run has no live wait: early confirmations count and are used up. */
  function Admit(g: Gate, run: string, paths: seq<string>): Gate {
    var remaining := NonBlank(paths) - (if run in g.early then g.early[run] else {});
    var g1 := g.(early := g.early - {run});
    if remaining == {} then RunNow(g1) else Hold(g1, run, remaining)
  }

  function Register(g: Gate, run: string, paths: seq<string>): Gate {
    if run == "" || paths == [] then RunNow(g)
    else Admit(if run in g.waits then Fire(g, run) else g, run, paths)
  }

  function Confirm(g: Gate, run: string, path: string): Gate {
    if run == "" || path == "" then g
    else if run !in g.waits then
      g.(early := g.early[run := (if run in g.early then g.early[run] else {}) + {path}])
    else
      var g1 := g.(waits := g.waits[run := g.waits[run].(remaining := g.waits[run].remaining - {path})]);
      if g1.waits[run].remaining == {} then Fire(g1, run) else g1
  }

  /** A timer acts only while the very wait it was started for is still the run's live one. */
  function Expire(g: Gate, run: string, reg: nat): Gate {
    if run in g.waits && g.waits[run].reg == reg then Fire(g, run) else g
  }

  function GateStep(g: Gate, e: GateEvent): Gate {
    match e
    case Registered(run, paths) => Register(g, run, paths)
    case Written(run, path) => Confirm(g, run, path)
    case Expired(run, reg) => Expire(g, run, reg)
  }

  function GateRun(events: seq<GateEvent>): Gate {
    if events == [] then EMPTY_GATE
    else GateStep(GateRun(events[..|events| - 1]), events[|events| - 1])
  }

  /* ---- Exactly one callback per registration ---- */

  /** The registrations held in live waits. */
  function PendingRegs(g: Gate): set<nat> {
    set r | r in g.waits :: g.waits[r].reg
  }

  /** Every number below `next` is fired or pending, not both, and none is fired twice. */
  ghost predicate Conserved(fired: seq<nat>, pending: set<nat>, next: nat) {
    && (forall i, j :: 0 <= i < j < |fired| ==> fired[i] != fired[j])
    && (forall n: nat :: n < next <==> n in fired || n in pending)
    && (forall n :: n in fired ==> n !in pending)
  }

  /** A registration is held in one live wait at most; live waits miss something; no run has both a live wait and a
      buffer of early confirmations. */
  ghost predicate Tidy(g: Gate) {
    && (forall r, s :: r in g.waits && s in g.waits && g.waits[r].reg == g.waits[s].reg ==> r == s)
    && (forall r :: r in g.waits ==> r != "" && g.waits[r].remaining != {} && r !in g.early)
  }

  ghost predicate GateInv(g: Gate) {
    Conserved(g.fired, PendingRegs(g), g.next) && Tidy(g)
  }

  lemma ConservedFire(fired: seq<nat>, pending: set<nat>, next: nat, reg: nat)
    requires Conserved(fired, pending, next)
    ensures reg in pending ==> Conserved(fired + [reg], pending - {reg}, next)
    ensures Conserved(fired + [next], pending, next + 1)
    ensures Conserved(fired, pending + {next}, next + 1)
  {
    assert next !in fired && next !in pending;
    assert forall i :: 0 <= i < |fired| ==> fired[i] in fired;
  }

  lemma FireKeepsInv(g: Gate, run: string)
    requires GateInv(g) && run in g.waits
    ensures GateInv(Fire(g, run))
    ensures PendingRegs(Fire(g, run)) == PendingRegs(g) - {g.waits[run].reg}
  {
    var h, reg := Fire(g, run), g.waits[run].reg;
    ConservedFire(g.fired, PendingRegs(g), g.next, reg);
    forall n | n in PendingRegs(g) && n != reg ensures n in PendingRegs(h) {
      var r :| r in g.waits && g.waits[r].reg == n;
      assert h.waits[r].reg == n;
    }
  }

  lemma StepKeepsInv(g: Gate, e: GateEvent)
    requires GateInv(g)
    ensures GateInv(GateStep(g, e))
  {
    match e
    case Registered(run, paths) => RegisterKeepsInv(g, run, paths);
    case Written(run, path) => ConfirmKeepsInv(g, run, path);
    case Expired(run, reg) => if run in g.waits { FireKeepsInv(g, run); }
  }

  lemma ConfirmKeepsInv(g: Gate, run: string, path: string)
    requires GateInv(g)
    ensures GateInv(Confirm(g, run, path))
  {
    if run == "" || path == "" || run !in g.waits {
      assert PendingRegs(Confirm(g, run, path)) == PendingRegs(g);
    } else {
      var shrunk := g.(waits := g.waits[run := g.waits[run].(remaining := g.waits[run].remaining - {path})]);
      if shrunk.waits[run].remaining == {} {
        assert Confirm(g, run, path) == Fire(g, run);
        FireKeepsInv(g, run);
      } else {
        SameRegistrations(g, shrunk);
      }
    }
  }

  lemma SameRegistrations(g: Gate, h: Gate)
    requires g.waits.Keys == h.waits.Keys && forall r :: r in g.waits ==> g.waits[r].reg == h.waits[r].reg
    ensures PendingRegs(g) == PendingRegs(h)
  {
    forall n ensures n in PendingRegs(g) <==> n in PendingRegs(h) {
      if r :| r in g.waits && g.waits[r].reg == n { assert h.waits[r].reg == n; }
    }
  }

  lemma RegisterKeepsInv(g: Gate, run: string, paths: seq<string>)
    requires GateInv(g)
    ensures GateInv(Register(g, run, paths))
  {
    if run == "" || paths == [] {
      RunNowKeepsInv(g);
    } else {
      if run in g.waits { FireKeepsInv(g, run); }
      AdmitKeepsInv(if run in g.waits then Fire(g, run) else g, run, paths);
    }
  }

  lemma RunNowKeepsInv(g: Gate)
    requires GateInv(g)
    ensures GateInv(RunNow(g))
  {
    ConservedFire(g.fired, PendingRegs(g), g.next, g.next);
    assert PendingRegs(RunNow(g)) == PendingRegs(g);
  }

  lemma AdmitKeepsInv(g: Gate, run: string, paths: seq<string>)
    requires GateInv(g) && run != "" && run !in g.waits
    ensures GateInv(Admit(g, run, paths))
  {
    var h, g1 := Admit(g, run, paths), g.(early := g.early - {run});
    assert PendingRegs(g1) == PendingRegs(g);
    if h == RunNow(g1) {
      RunNowKeepsInv(g1);
    } else {
      ConservedFire(g.fired, PendingRegs(g), g.next, g.next);
      HeldRegistration(g1, h, run);
    }
  }

  lemma HeldRegistration(g: Gate, h: Gate, run: string)
    requires GateInv(g) && run !in g.waits && run in h.waits && h.waits == g.waits[run := h.waits[run]]
    requires h.waits[run].reg == g.next
    ensures PendingRegs(h) == PendingRegs(g) + {g.next}
    ensures forall r, s :: r in h.waits && s in h.waits && h.waits[r].reg == h.waits[s].reg ==> r == s
  {
    assert forall r :: r in g.waits ==> g.waits[r].reg in PendingRegs(g);
    forall n | n in PendingRegs(g) + {g.next} ensures n in PendingRegs(h) {
      if n == g.next { assert h.waits[run].reg == n; }
      else {
        var r :| r in g.waits && g.waits[r].reg == n;
        assert h.waits[r].reg == n;
      }
    }
  }

  /** Conservation, at every moment of every history. */
  lemma {:induction false} GateConserves(events: seq<GateEvent>)
    ensures GateInv(GateRun(events))
  {
    if events != [] {
      GateConserves(events[..|events| - 1]);
      StepKeepsInv(GateRun(events[..|events| - 1]), events[|events| - 1]);
    }
  }

  /** The timer of a registration that has been released, whether completed, replaced or timed out, does nothing any
      more; while its wait is live it releases exactly that registration. */
  lemma TimersAreExact(events: seq<GateEvent>, run: string, reg: nat)
    ensures var g := GateRun(events); var h := GateStep(g, Expired(run, reg));
            && (reg in g.fired ==> h == g)
            && (run in g.waits && g.waits[run].reg == reg ==> h.fired == g.fired + [reg] && h.waits == g.waits - {run})
  {
    GateConserves(events);
  }

  /** Once the timers of all live waits have expired, in any order and among any other expirations, the callbacks run
      are exactly the registrations, once each. */
  lemma {:induction false} AllTimersDrain(events: seq<GateEvent>, expiries: seq<GateEvent>)
    requires forall e :: e in expiries ==> e.Expired?
    requires forall run :: run in GateRun(events).waits ==> Expired(run, GateRun(events).waits[run].reg) in expiries
    ensures var g := GateRun(events + expiries);
            && g.waits == map[] && g.next == GateRun(events).next
            && (forall n: nat :: n in g.fired <==> n < g.next)
            && forall i, j :: 0 <= i < j < |g.fired| ==> g.fired[i] != g.fired[j]
  {
    var g := GateRun(events + expiries);
    ExpiriesShrink(events, expiries);
    GateConserves(events + expiries);
    assert g.waits == map[];
    assert PendingRegs(g) == {};
  }

  lemma {:induction false} ExpiriesShrink(events: seq<GateEvent>, expiries: seq<GateEvent>)
    requires forall e :: e in expiries ==> e.Expired?
    ensures var g, h := GateRun(events), GateRun(events + expiries);
            && h.next == g.next
            && forall run :: run in h.waits ==>
                 run in g.waits && h.waits[run] == g.waits[run] && Expired(run, g.waits[run].reg) !in expiries
  {
    if expiries == [] {
      assert events + expiries == events;
    } else {
      var rest, last := expiries[..|expiries| - 1], expiries[|expiries| - 1];
      assert expiries == rest + [last];
      var all := events + expiries;
      assert all[..|all| - 1] == events + rest && all[|all| - 1] == last && last in expiries;
      ExpiriesShrink(events, rest);
    }
  }

  /* ---- Order independence ---- */

  /** The paths confirmed for a run so far. */
  function Confirmed(events: seq<GateEvent>, run: string): set<string> {
    set e | e in events && e.Written? && e.run == run && e.path != "" :: e.path
  }

  /** One registration of `run`, at position `at`, and no expiry of its timer. */
  ghost predicate OneRegistration(events: seq<GateEvent>, run: string, paths: seq<string>, at: nat) {
    && run != ""
    && (forall i :: 0 <= i < |events| && events[i].Registered? && events[i].run == run ==>
        i == at && events[i].paths == paths)
    && (at < |events| ==> events[at] == Registered(run, paths))
    && (forall i :: 0 <= i < |events| ==> !(events[i].Expired? && events[i].run == run))
  }

  /** What the gate knows of a run with one registration. */
  ghost predicate GateView(
      g: Gate, run: string, paths: seq<string>, confirmed: set<string>, registered: bool, reg: nat) {
    if !registered then
      run !in g.waits && (if run in g.early then g.early[run] == confirmed else confirmed == {})
    else
      var missing := NonBlank(paths) - confirmed;
      && reg < g.next
      && (reg in g.fired <==> missing == {})
      && (run in g.waits <==> missing != {})
      && (run in g.waits ==> g.waits[run] == Wait(reg, missing))
  }

  /** Whatever the interleaving, and however many confirmations came early: at each moment the callback has run exactly
      if the gate is registered and every non-blank path has been confirmed. */
  lemma {:induction false} FiresWhenComplete(events: seq<GateEvent>, run: string, paths: seq<string>, at: nat)
    requires OneRegistration(events, run, paths, at)
    ensures var reg := if at < |events| then GateRun(events[..at]).next else 0;
            GateView(GateRun(events), run, paths, Confirmed(events, run), at < |events|, reg)
  {
    if events != [] {
      var rest, last := events[..|events| - 1], events[|events| - 1];
      assert events == rest + [last];
      assert forall i :: 0 <= i < |rest| ==> rest[i] == events[i];
      FiresWhenComplete(rest, run, paths, at);
      GateConserves(rest);
      assert at < |rest| ==> events[..at] == rest[..at];
      assert Confirmed(events, run) == Confirmed(rest, run) + Confirmed([last], run);
      ViewStep(GateRun(rest), run, paths, Confirmed(rest, run), at < |rest|,
               if at < |rest| then GateRun(rest[..at]).next else 0, last, at == |rest|);
    }
  }

  lemma ViewStep(
      g: Gate, run: string, paths: seq<string>, confirmed: set<string>, registered: bool, reg: nat, e: GateEvent,
      now: bool)
    requires GateInv(g) && run != "" && GateView(g, run, paths, confirmed, registered, reg)
    requires !(e.Expired? && e.run == run)
    requires if e.Registered? && e.run == run then now && !registered && e.paths == paths else !now
    ensures GateView(GateStep(g, e), run, paths, confirmed + Confirmed([e], run), registered || now, if now then g.next
                     else reg)
  {
    if e.run == run {
      if e.Written? && e.path != "" {
        assert Confirmed([e], run) == {e.path} by { assert e in [e]; }
        ViewConfirm(g, run, paths, confirmed, registered, reg, e.path);
      } else {
        assert Confirmed([e], run) == {} && confirmed + {} == confirmed;
        if e.Registered? { ViewRegister(g, run, paths, confirmed, reg); }
      }
    } else {
      assert Confirmed([e], run) == {} && confirmed + {} == confirmed;
      ViewOther(g, run, paths, confirmed, registered, reg, e);
    }
  }

  lemma ViewConfirm(
      g: Gate, run: string, paths: seq<string>, confirmed: set<string>, registered: bool, reg: nat, path: string)
    requires GateInv(g) && run != "" && path != "" && GateView(g, run, paths, confirmed, registered, reg)
    ensures GateView(Confirm(g, run, path), run, paths, confirmed + {path}, registered, reg)
  {
    assert NonBlank(paths) - (confirmed + {path}) == NonBlank(paths) - confirmed - {path};
    if run in g.waits && g.waits[run].remaining - {path} == {} {
      assert Confirm(g, run, path).fired[|g.fired|] == reg;
    }
  }

  lemma ViewRegister(g: Gate, run: string, paths: seq<string>, confirmed: set<string>, reg: nat)
    requires GateInv(g) && run != "" && GateView(g, run, paths, confirmed, false, reg)
    ensures GateView(Register(g, run, paths), run, paths, confirmed, true, g.next)
  {
    var h := Register(g, run, paths);
    assert g.next !in g.fired;
    if h.fired != g.fired { assert h.fired == g.fired + [g.next] && h.fired[|g.fired|] == g.next; }
  }

  lemma OtherRunUntouched(g: Gate, run: string, e: GateEvent)
    requires e.run != run
    ensures var h := GateStep(g, e);
            && (run in h.waits <==> run in g.waits) && (run in g.waits ==> h.waits[run] == g.waits[run])
            && (run in h.early <==> run in g.early) && (run in g.early ==> h.early[run] == g.early[run])
            && g.fired <= h.fired && g.next <= h.next
  {
  }

  /** Events of other runs are invisible. */
  lemma ViewOther(
      g: Gate, run: string, paths: seq<string>, confirmed: set<string>, registered: bool, reg: nat, e: GateEvent)
    requires GateInv(g) && run != "" && e.run != run && GateView(g, run, paths, confirmed, registered, reg)
    ensures GateView(GateStep(g, e), run, paths, confirmed, registered, reg)
  {
    OtherRunUntouched(g, run, e);
    if registered && run in g.waits {
      StepKeepsInv(g, e);
      assert reg in PendingRegs(GateStep(g, e)) by { assert GateStep(g, e).waits[run].reg == reg; }
    }
  }

  /* ---- Any number of registrations ---- */

  /** The paths buffered for a run: confirmed while it had no live wait, and not used up by a registration since. */
  function Buffered(events: seq<GateEvent>, run: string): set<string> {
    set j: nat | j < |events| && events[j].Written? && events[j].run == run && events[j].path != ""
            && run !in GateRun(events[..j]).waits && !Replaced(events, j, run) :: events[j].path
  }

  /** The run is registered again, with something to wait for, after event `at`. */
  predicate Replaced(events: seq<GateEvent>, at: nat, run: string) {
    exists i: nat :: at < i < |events| && events[i].Registered? && events[i].run == run && events[i].paths != []
  }

  lemma {:induction false} EarlyIsBuffered(events: seq<GateEvent>, run: string)
    requires run != ""
    ensures var g := GateRun(events);
            Buffered(events, run) == if run in g.early then g.early[run] else {}
  {
    if events != [] {
      var rest, last := events[..|events| - 1], events[|events| - 1];
      EarlyIsBuffered(rest, run);
      GateConserves(rest);
      BufferedStep(rest, last, run);
      assert events == rest + [last];
    }
  }

  lemma BufferedStep(rest: seq<GateEvent>, last: GateEvent, run: string)
    requires run != ""
    ensures Buffered(rest + [last], run)
            == if last.Registered? && last.run == run && last.paths != [] then {}
               else if last.Written? && last.run == run && last.path != "" && run !in GateRun(rest).waits
               then Buffered(rest, run) + {last.path}
               else Buffered(rest, run)
  {
    var events := rest + [last];
    forall j: nat | j < |rest|
      ensures events[..j] == rest[..j] && events[j] == rest[j]
      ensures Replaced(events, j, run)
              <==> Replaced(rest, j, run) || (last.Registered? && last.run == run && last.paths != [])
    {
      ReplacedStep(rest, last, j, run);
    }
    assert events[..|rest|] == rest && events[|rest|] == last;
    assert !Replaced(events, |rest|, run);
  }

  lemma ReplacedStep(rest: seq<GateEvent>, last: GateEvent, j: nat, run: string)
    requires j < |rest|
    ensures Replaced(rest + [last], j, run)
            <==> Replaced(rest, j, run) || (last.Registered? && last.run == run && last.paths != [])
  {
    var events := rest + [last];
    if last.Registered? && last.run == run && last.paths != [] { assert events[|rest|] == last; }
    if i: nat :| j < i < |rest| && rest[i].Registered? && rest[i].run == run && rest[i].paths != [] {
      assert events[i] == rest[i];
    }
  }

  /** The timer of registration `reg` runs after event `at`. */
  predicate TimedOut(events: seq<GateEvent>, at: nat, run: string, reg: nat) {
    exists i: nat :: at < i < |events| && events[i] == Expired(run, reg)
  }

  /** What is still missing for the registration at `at`. */
  function Missing(events: seq<GateEvent>, at: nat): set<string>
    requires at < |events| && events[at].Registered?
  {
    NonBlank(events[at].paths) - Buffered(events[..at], events[at].run)
    - Confirmed(events[at + 1..], events[at].run)
  }

  /** The law of the gate, for every registration of every history: at each moment its callback has been released
      exactly if every non-blank path has been confirmed, since then or into the buffer before, or the run has been
      registered again, or its own timer has run.  A registration that replaces a live wait finds the buffer empty and
      waits for its own paths. */
  lemma FiresExactlyIf(events: seq<GateEvent>, at: nat)
    requires at < |events| && events[at].Registered?
    ensures var run, reg := events[at].run, GateRun(events[..at]).next;
            reg in GateRun(events).fired
            <==> run == "" || Missing(events, at) == {} || Replaced(events, at, run) || TimedOut(events, at, run, reg)
  {
    if events[at].run == "" || events[at].paths == [] {
      ReleasedAtOnce(events, at);
    } else {
      WaitsOrDone(events, at);
    }
  }

  /** A run with a live wait has an empty buffer. */
  lemma LiveHasNoBuffer(events: seq<GateEvent>, run: string)
    requires run in GateRun(events).waits
    ensures Buffered(events, run) == {}
  {
    GateConserves(events);
    EarlyIsBuffered(events, run);
  }

  /** The live wait that a registration replaces is released by it. */
  lemma ReplacedIsReleased(events: seq<GateEvent>, run: string, paths: seq<string>)
    requires run in GateRun(events).waits && paths != []
    ensures var reg := GateRun(events).waits[run].reg;
            reg !in GateRun(events).fired && reg in GateRun(events + [Registered(run, paths)]).fired
  {
    var g, last := GateRun(events), Registered(run, paths);
    GateConserves(events);
    assert g.waits[run].reg in PendingRegs(g) && run != "";
    assert (events + [last])[..|events|] == events;
    assert Fire(g, run).fired[|g.fired|] == g.waits[run].reg;
    FiredStays(Fire(g, run), run, paths);
  }

  lemma FiredStays(g: Gate, run: string, paths: seq<string>)
    ensures g.fired <= Admit(g, run, paths).fired && g.next < Admit(g, run, paths).next
  {
  }

  lemma {:induction false} ReleasedAtOnce(events: seq<GateEvent>, at: nat)
    requires at < |events| && events[at].Registered? && (events[at].run == "" || events[at].paths == [])
    ensures GateRun(events[..at]).next in GateRun(events).fired
    decreases |events|
  {
    var rest := events[..|events| - 1];
    if at < |rest| {
      assert rest[..at] == events[..at] && rest[at] == events[at];
      ReleasedAtOnce(rest, at);
      FiredGrows(GateRun(rest), events[|rest|]);
    } else {
      assert rest == events[..at];
      assert GateRun(events) == RunNow(GateRun(rest));
      assert GateRun(events).fired[|GateRun(rest).fired|] == GateRun(rest).next;
    }
  }

  lemma FiredGrows(g: Gate, e: GateEvent)
    ensures g.fired <= GateStep(g, e).fired && g.next <= GateStep(g, e).next
    ensures forall n :: n in g.fired ==> n in GateStep(g, e).fired
  {
    var h := GateStep(g, e);
    assert g.fired <= h.fired;
    forall n | n in g.fired ensures n in h.fired {
      var i :| 0 <= i < |g.fired| && g.fired[i] == n;
      assert h.fired[i] == n;
    }
  }

  /** One registration: it is done and has been released, or it is the live wait of its run and misses just that. */
  ghost predicate WaitView(g: Gate, run: string, reg: nat, missing: set<string>, done: bool) {
    && reg < g.next
    && (reg in g.fired <==> done)
    && (!done ==> missing != {} && run in g.waits && g.waits[run] == Wait(reg, missing))
  }

  predicate Done(events: seq<GateEvent>, at: nat, reg: nat)
    requires at < |events| && events[at].Registered?
  {
    Missing(events, at) == {} || Replaced(events, at, events[at].run) || TimedOut(events, at, events[at].run, reg)
  }

  lemma {:induction false} WaitsOrDone(events: seq<GateEvent>, at: nat)
    requires at < |events| && events[at].Registered? && events[at].run != "" && events[at].paths != []
    ensures var reg := GateRun(events[..at]).next;
            WaitView(GateRun(events), events[at].run, reg, Missing(events, at), Done(events, at, reg))
    decreases |events|
  {
    var rest, last := events[..|events| - 1], events[|events| - 1];
    var run, reg := events[at].run, GateRun(events[..at]).next;
    GateConserves(rest);
    assert events == rest + [last];
    if at < |rest| {
      assert rest[..at] == events[..at] && rest[at] == events[at];
      WaitsOrDone(rest, at);
      MissingStep(rest, last, at, reg);
      WaitStep(GateRun(rest), run, reg, Missing(rest, at), Done(rest, at, reg), last);
    } else {
      assert rest == events[..at];
      EarlyIsBuffered(rest, run);
      assert Confirmed(events[at + 1..], run) == {};
      AdmissionView(GateRun(rest), run, events[at].paths);
    }
  }

  /** What one more event changes about a registration. */
  predicate Ends(e: GateEvent, run: string, reg: nat) {
    (e.Registered? && e.run == run && e.paths != []) || e == Expired(run, reg)
  }

  function Strike(missing: set<string>, e: GateEvent, run: string): set<string> {
    if e.Written? && e.run == run && e.path != "" then missing - {e.path} else missing
  }

  lemma MissingStep(rest: seq<GateEvent>, last: GateEvent, at: nat, reg: nat)
    requires at < |rest| && rest[at].Registered?
    ensures var events, run := rest + [last], rest[at].run;
            && events[at] == rest[at] && events[..at] == rest[..at]
            && Missing(events, at) == Strike(Missing(rest, at), last, run)
            && (Done(events, at, reg)
                <==> Done(rest, at, reg) || Missing(events, at) == {} || Ends(last, run, reg))
  {
    var events, run := rest + [last], rest[at].run;
    assert events[..at] == rest[..at] && events[at + 1..] == rest[at + 1..] + [last];
    ConfirmedStep(rest[at + 1..], last, run);
    ReplacedStep(rest, last, at, run);
    TimedOutStep(rest, last, at, run, reg);
  }

  lemma TimedOutStep(rest: seq<GateEvent>, last: GateEvent, at: nat, run: string, reg: nat)
    requires at < |rest|
    ensures TimedOut(rest + [last], at, run, reg) <==> TimedOut(rest, at, run, reg) || last == Expired(run, reg)
  {
    var events := rest + [last];
    if last == Expired(run, reg) { assert events[|rest|] == last; }
    if i: nat :| at < i < |rest| && rest[i] == Expired(run, reg) { assert events[i] == rest[i]; }
  }

  lemma ConfirmedStep(events: seq<GateEvent>, e: GateEvent, run: string)
    ensures Confirmed(events + [e], run)
            == Confirmed(events, run) + if e.Written? && e.run == run && e.path != "" then {e.path} else {}
  {
  }

  lemma WaitStep(g: Gate, run: string, reg: nat, missing: set<string>, done: bool, e: GateEvent)
    requires GateInv(g) && run != "" && WaitView(g, run, reg, missing, done)
    ensures var missing' := Strike(missing, e, run);
            WaitView(GateStep(g, e), run, reg, missing', done || missing' == {} || Ends(e, run, reg))
  {
    FiredGrows(g, e);
    if !done {
      if e.run != run {
        OtherRunUntouched(g, run, e);
        StepKeepsInv(g, e);
        assert GateStep(g, e).waits[run].reg in PendingRegs(GateStep(g, e));
      } else {
        LiveStep(g, run, reg, missing, e);
      }
    }
  }

  lemma LiveStep(g: Gate, run: string, reg: nat, missing: set<string>, e: GateEvent)
    requires GateInv(g) && run != "" && WaitView(g, run, reg, missing, false) && e.run == run
    ensures var missing' := Strike(missing, e, run);
            WaitView(GateStep(g, e), run, reg, missing', missing' == {} || Ends(e, run, reg))
  {
    var h := GateStep(g, e);
    assert Fire(g, run).fired[|g.fired|] == reg;
    match e
    case Registered(_, paths) =>
      if paths != [] { FiredStays(Fire(g, run), run, paths); assert h.fired[|g.fired|] == reg; }
    case Written(_, path) =>
      if path != "" && missing - {path} == {} { assert h.fired[|g.fired|] == reg; }
    case Expired(_, r) =>
  }

  lemma AdmissionView(g: Gate, run: string, paths: seq<string>)
    requires GateInv(g) && run != "" && paths != []
    ensures var missing := NonBlank(paths) - (if run in g.early then g.early[run] else {});
            WaitView(Register(g, run, paths), run, g.next, missing, missing == {})
  {
    var g1 := if run in g.waits then Fire(g, run) else g;
    if run in g.waits { FireKeepsInv(g, run); }
    var h := Register(g, run, paths);
    assert g1.next == g.next && g.next !in g1.fired;
    if h.fired != g1.fired { assert h.fired == g1.fired + [g.next] && h.fired[|g1.fired|] == g.next; }
  }
}
