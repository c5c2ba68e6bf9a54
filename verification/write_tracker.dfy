/** The mutex-guarded tracker itself: wait objects with identity, the two maps, and timers that may still run after
    Stop. Every method is one critical section and computes the gate step of the same name. */
module WriteTracking {
  import opened WriteGate

  /** One in-flight gate.  `onDone` stands for the callback: the number of its registration. */
  class WriteWait {
    const run: string
    const onDone: nat
    var remaining: set<string>
    var fired: bool

    constructor (run: string, onDone: nat, remaining: set<string>)
      ensures this.run == run && this.onDone == onDone && this.remaining == remaining && !fired
    {
      this.run, this.onDone, this.remaining, this.fired := run, onDone, remaining, false;
    }
  }

  class WriteTracker {
    var waits: map<string, WriteWait>
    var early: map<string, set<string>>
    /** The callbacks started so far, in order. */
    var released: seq<nat>
    var registrations: nat
    /** Every wait ever created: its timer may run at any time, stopped or not. */
    ghost var timers: set<WriteWait>

    ghost predicate Valid()
      reads this, timers
    {
      && (forall r :: r in waits ==> waits[r] in timers && waits[r].run == r && !waits[r].fired)
      && (forall w :: w in timers && !w.fired ==> w.run in waits && waits[w.run] == w)
      && (forall w :: w in timers ==> w.onDone < registrations)
      && (forall v, w :: v in timers && w in timers && v != w ==> v.onDone != w.onDone)
      && (forall r :: r in waits ==> r !in early)
    }

    /** The tracker as a gate value. */
    ghost function State(): Gate
      reads this, waits.Values
    {
      Gate(map r | r in waits :: Wait(waits[r].onDone, waits[r].remaining), early, released, registrations)
    }

    constructor ()
      ensures Valid() && State() == EMPTY_GATE && timers == {}
    {
      waits, early, released, registrations, timers := map[], map[], [], 0, {};
    }

    /** Holds `onDone` back until every non-blank path is confirmed; a live wait of the same run is released first. */
    method WaitForWrites(run: string, paths: seq<string>)
      requires Valid()
      modifies this, timers
      ensures Valid() && fresh(timers - old(timers)) && old(timers) <= timers
      ensures State() == GateStep(old(State()), Registered(run, paths))
    {
      if run == "" || paths == [] {
        RunNow();
        return;
      }
      if run in waits {
        FireLocked(run, waits[run]);
      }
      Admit(run, paths);
    }

    method Admit(run: string, paths: seq<string>)
      requires Valid() && run !in waits
      modifies `waits, `early, `released, `registrations, `timers
      ensures Valid() && fresh(timers - old(timers)) && old(timers) <= timers
      ensures State() == WriteGate.Admit(old(State()), run, paths)
    {
      var remaining := Unconfirmed(run, paths);
      ghost var g := State();
      early := early - {run};
      assert State() == g.(early := g.early - {run});
      if remaining == {} {
        RunNow();
      } else {
        Hold(run, remaining);
      }
    }

    /** Starts the callback of a new registration at once. */
    method RunNow()
      requires Valid()
      modifies `released, `registrations
      ensures Valid() && State() == WriteGate.RunNow(old(State()))
    {
      released := released + [registrations];
      registrations := registrations + 1;
    }

    /** Stores a new wait and starts its timer. */
    method Hold(run: string, remaining: set<string>)
      requires Valid() && run !in waits && run !in early
      modifies `waits, `registrations, `timers
      ensures Valid() && fresh(timers - old(timers)) && old(timers) <= timers
      ensures State() == WriteGate.Hold(old(State()), run, remaining)
    {
      ghost var g := State();
      var wait := new WriteWait(run, registrations, remaining);
      assert State() == g;
      Keep(run, wait);
      assert State().waits == g.waits[run := Wait(g.next, remaining)];
    }

    /** Makes a new wait the live one of its run. */
    method Keep(run: string, wait: WriteWait)
      requires Valid() && run !in waits && run !in early && wait !in timers
      requires wait.run == run && wait.onDone == registrations && !wait.fired
      modifies `waits, `registrations, `timers
      ensures Valid() && timers == old(timers) + {wait} && registrations == old(registrations) + 1
      ensures waits == old(waits)[run := wait]
    {
      registrations := registrations + 1;
      timers := timers + {wait};
      waits := waits[run := wait];
    }

    /** The non-blank paths that were not confirmed early. */
    method Unconfirmed(run: string, paths: seq<string>) returns (remaining: set<string>)
      ensures remaining == NonBlank(paths) - (if run in early then early[run] else {})
    {
      remaining := {};
      for i := 0 to |paths|
        invariant remaining == NonBlank(paths[..i])
      {
        assert paths[..i + 1] == paths[..i] + [paths[i]];
        if paths[i] != "" {
          remaining := remaining + {paths[i]};
        }
      }
      assert paths[..|paths|] == paths;
      if run in early {
        remaining := remaining - early[run];
      }
    }

    /** Records one confirmation and releases the wait that it completes. */
    method OnFileWritten(run: string, path: string)
      requires Valid()
      modifies this, timers
      ensures Valid() && timers == old(timers)
      ensures State() == GateStep(old(State()), Written(run, path))
    {
      if run == "" || path == "" {
        return;
      }
      if run !in waits {
        early := early[run := (if run in early then early[run] else {}) + {path}];
        return;
      }
      var wait := waits[run];
      Strike(run, wait, path);
      if wait.remaining == {} {
        FireLocked(run, wait);
      }
    }

    /** Takes one path off a live wait. */
    method Strike(run: string, w: WriteWait, path: string)
      requires Valid() && run in waits && waits[run] == w
      modifies w`remaining
      ensures Valid()
      ensures var was := old(State()).waits[run];
              State() == old(State()).(waits := old(State()).waits[run := was.(remaining := was.remaining - {path})])
    {
      w.remaining := w.remaining - {path};
    }

    /** The timer closure of `wait`: it compares object identity, not the run id, before it releases anything. */
    method TimerExpired(wait: WriteWait)
      requires Valid() && wait in timers
      modifies this, timers
      ensures Valid() && timers == old(timers)
      ensures State() == GateStep(old(State()), Expired(wait.run, wait.onDone))
    {
      if wait.run !in waits || waits[wait.run] != wait || wait.fired {
        return;
      }
      FireLocked(wait.run, wait);
    }

    method FireLocked(run: string, w: WriteWait)
      requires Valid() && run in waits && waits[run] == w
      modifies this, w
      ensures Valid() && timers == old(timers) && registrations == old(registrations) && w.fired
      ensures State() == Fire(old(State()), run)
    {
      Drop(run, w);
      released := released + [w.onDone];
    }

    /** Retires the live wait of `run`. */
    method Drop(run: string, w: WriteWait)
      requires Valid() && run in waits && waits[run] == w
      modifies `waits, w`fired
      ensures Valid() && w.fired && State() == old(State()).(waits := old(State()).waits - {run})
    {
      w.fired := true;
      waits := waits - {run};
    }
  }
}
