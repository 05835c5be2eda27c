/** `release()`: a job puts itself back without failing, a bounded number of times. */
module ReleaseBudget {
  import opened Options
  import opened Numbers
  import BatchModel

  /** `job.data.maxReleases`, which may be missing or not a number at all. */
  datatype Declared = Unusable | Declared(n: Number)

  datatype Thrown = NoLock | MaxReleases(limit: nat) | DelayedError

  const DEFAULT_MAX_RELEASES: nat := 25

  predicate Sane(n: Number) { n.Finite? && n.value >= 0.0 }

  /** The cap a job runs under: its own if the payload declares a usable one, the supervisor's otherwise. */
  function ReleaseCap(declared: Declared, configured: Number): Number {
    if declared.Declared? && Sane(declared.n) then Finite(declared.n.value.Floor as real) else configured
  }

  /** The limit `release` holds the job to. */
  function Limit(cap: Number): nat {
    if Sane(cap) then cap.value.Floor else DEFAULT_MAX_RELEASES
  }

  /** A payload moves the limit only by declaring a number of its own; a bad value leaves it where the
    * supervisor put it, and no number at all lifts it altogether.
    */
  lemma LimitInForce(declared: Declared, configured: Number)
    ensures var limit := Limit(ReleaseCap(declared, configured));
            var own := declared.Declared? && declared.n.Finite? && declared.n.value >= 0.0;
            var given := configured.Finite? && configured.value >= 0.0;
            && (own ==> limit as real <= declared.n.value < limit as real + 1.0)
            && (!own && given ==> limit as real <= configured.value < limit as real + 1.0)
            && (!own && !given ==> limit == 25)
  {
  }

  class Job {
    var attemptsMade: nat
    var attemptsStarted: nat
    var delayedUntil: Option<real>

    constructor ()
      ensures attemptsMade == 0 && attemptsStarted == 0 && delayedUntil == None
    {
      attemptsMade, attemptsStarted, delayedUntil := 0, 0, None;
    }

    /** Never returns to the handler: what it throws is the result. */
    method Release(token: bool, seconds: Number, cap: Number, now: real)
        returns (thrown: Thrown, reported: Option<real>)
      modifies this`delayedUntil
      ensures thrown == Decision(token, attemptsMade, attemptsStarted, cap)
      ensures var limit: nat := if cap.Finite? && cap.value >= 0.0 then cap.value.Floor else 25;
              && (thrown.NoLock? <==> !token)
              && (thrown.DelayedError? <==> token && attemptsStarted <= attemptsMade + limit)
              && (thrown.MaxReleases? ==> thrown.limit == limit)
      ensures thrown.DelayedError? && seconds.Finite? && seconds.value >= 0.0 ==>
                reported == Some(seconds.value) && delayedUntil == Some(now + seconds.value * 1000.0)
      ensures thrown.DelayedError? && !(seconds.Finite? && seconds.value >= 0.0) ==>
                reported == Some(0.0) && delayedUntil == Some(now)
      ensures !thrown.DelayedError? ==> reported == None && delayedUntil == old(delayedUntil)
    {
      if !token {
        return NoLock, None;
      }
      var limit := if cap.Finite? && cap.value >= 0.0 then cap.value.Floor else DEFAULT_MAX_RELEASES;
      if attemptsStarted - attemptsMade - 1 >= limit {
        return MaxReleases(limit), None;
      }
      var delay := if seconds.Finite? then if seconds.value < 0.0 then 0.0 else seconds.value else 0.0;
      delayedUntil := Some(now + delay * 1000.0);
      return DelayedError, Some(delay);
    }
  }

  function Decision(token: bool, made: nat, started: nat, cap: Number): Thrown {
    if !token then NoLock
    else if started - made - 1 >= Limit(cap) then MaxReleases(Limit(cap))
    else DelayedError
  }

  // ----- The life of one job, with the counters BullMQ keeps -----

  datatype Phase = Waiting | Active | Done

  datatype State = State(phase: Phase, made: nat, started: nat)

  /** A handler asks for release under a cap, which the payload may change between attempts. */
  datatype Event = Pop | Ask(token: bool, cap: Number) | Throw(unrecoverable: bool) | Return

  function Failed(attempts: nat, s: State, unrecoverable: bool): State {
    s.(phase := if unrecoverable || s.made + 1 >= attempts then Done else Waiting, made := s.made + 1)
  }

  function Next(attempts: nat, s: State, e: Event): State {
    if s.phase == Waiting && e.Pop? then s.(phase := Active, started := s.started + 1)
    else if s.phase != Active then s
    else match e
      case Pop => s
      case Return => s.(phase := Done)
      case Throw(unrecoverable) => Failed(attempts, s, unrecoverable)
      case Ask(token, cap) =>
        if Decision(token, s.made, s.started, cap) == DelayedError then s.(phase := Waiting)
            else Failed(attempts, s, false)
  }

  function Life(attempts: nat, run: seq<Event>): State {
    if run == [] then State(Waiting, 0, 0) else Next(attempts, Life(attempts, run[..|run| - 1]), run[|run| - 1])
  }

  predicate Releases(s: State, e: Event) {
    s.phase == Active && e.Ask? && Decision(e.token, s.made, s.started, e.cap) == DelayedError
  }

  /** How often the job really released itself. */
  function Released(attempts: nat, run: seq<Event>): nat {
    if run == [] then 0
    else Released(attempts, run[..|run| - 1])
         + if Releases(Life(attempts, run[..|run| - 1]), run[|run| - 1]) then 1 else 0
  }

  function AtLeastOne(attempts: nat): nat { if attempts > 1 then attempts else 1 }

  /** The difference of the two counters is the number of releases, in every run. */
  lemma {:induction false} CountersTellReleases(attempts: nat, run: seq<Event>)
    ensures var s := Life(attempts, run);
            && (s.phase == Active ==>
                  s.started - s.made - 1 == Released(attempts, run) && s.made < AtLeastOne(attempts))
            && (s.phase == Waiting ==> s.started - s.made == Released(attempts, run) && s.made < AtLeastOne(attempts))
            && (s.phase == Done ==> Released(attempts, run) <= s.started - s.made + 1 && s.made <= AtLeastOne(attempts)
                                    && s.started <= AtLeastOne(attempts) + Released(attempts, run))
  {
    if run != [] {
      CountersTellReleases(attempts, run[..|run| - 1]);
    }
  }

  /** So a job is released only while it has used up less than the limit of the cap in force, and it is
    * picked up at most once an attempt and once more a release.
    */
  lemma {:induction false} BudgetHolds(attempts: nat, run: seq<Event>, most: nat)
    requires forall e :: e in run && e.Ask? ==> Limit(e.cap) <= most
    ensures Released(attempts, run) <= most
    ensures Life(attempts, run).started <= AtLeastOne(attempts) + most
  {
    CountersTellReleases(attempts, run);
    if run != [] {
      var before := run[..|run| - 1];
      assert run[|run| - 1] in run && forall e :: e in before ==> e in run;
      BudgetHolds(attempts, before, most);
      CountersTellReleases(attempts, before);
    }
  }

  /** A job that asks every time it is picked up. */
  function Asking(times: nat, cap: Number): seq<Event> {
    if times == 0 then [] else Asking(times - 1, cap) + [Pop, Ask(true, cap)]
  }

  lemma AskingOnce(attempts: nat, times: nat, cap: Number)
    ensures Life(attempts, Asking(times + 1, cap))
            == Next(attempts, Next(attempts, Life(attempts, Asking(times, cap)), Pop), Ask(true, cap))
  {
    var run, popped := Asking(times, cap), Asking(times, cap) + [Pop];
    var asked := Asking(times + 1, cap);
    assert popped[..|popped| - 1] == run;
    assert asked[..|asked| - 1] == popped;
  }

  lemma AskAt(attempts: nat, times: nat, cap: Number)
    ensures Next(attempts, Next(attempts, State(Waiting, 0, times), Pop), Ask(true, cap))
            == if times < Limit(cap) then State(Waiting, 0, times + 1)
               else State(if attempts <= 1 then Done else Waiting, 1, times + 1)
  {
  }

  /** The whole budget can be spent, and not one release more: asked once past the limit, the job fails
    * an attempt.
    */
  lemma {:induction false} BudgetIsReached(attempts: nat, times: nat, cap: Number)
    requires times <= Limit(cap)
    ensures Life(attempts, Asking(times, cap)) == State(Waiting, 0, times)
    ensures times == Limit(cap) ==>
              Life(attempts, Asking(times + 1, cap)) == State(if attempts <= 1 then Done else Waiting, 1, times + 1)
  {
    if times > 0 {
      BudgetIsReached(attempts, times - 1, cap);
      AskingOnce(attempts, times - 1, cap);
      AskAt(attempts, times - 1, cap);
    }
    AskingOnce(attempts, times, cap);
    AskAt(attempts, times, cap);
  }

  /** What happens in a handler moves a job as it moves a lane of the batch protocol: back to the queue with the
    * same count of attempts, or to its end.
    */
  lemma LifeIsLane(attempts: nat, s: State, e: Event, l: BatchModel.Lane, at: nat)
    requires |l.todo| > 0 && l.phase == BatchModel.Active(BatchModel.Processing) && !e.Pop?
    requires s == State(Active, l.made, l.started) && l.todo[0].attempts == attempts
    requires e.Ask? ==> l.todo[0].cap == Limit(e.cap)
    ensures var outcome := match e
                           case Return => BatchModel.Returns
                           case Throw(unrecoverable) => BatchModel.Throws(unrecoverable)
                           case Ask(token, _) => if token then BatchModel.Releases else BatchModel.Throws(false);
            var s', l' := Next(attempts, s, e), BatchModel.FinishLane(l, outcome, at);
            && (s'.phase == Waiting <==> l'.phase == BatchModel.Waiting)
            && (s'.phase == Waiting ==> s' == State(Waiting, l'.made, l'.started))
            && (s'.phase != Waiting ==> s' == State(Done, if e.Return? then l.made else l.made + 1, l'.started))
  {
  }

  /** A lane of the batch protocol is released exactly when `release` would throw `DelayedError`, given
    * that its cap is the limit in force.
    */
  lemma LanesReleaseAlike(l: BatchModel.Lane, cap: Number, at: nat)
    requires |l.todo| > 0 && l.phase == BatchModel.Active(BatchModel.Processing) && l.todo[0].cap == Limit(cap)
    ensures BatchModel.FinishLane(l, BatchModel.Releases, at)
            == if Decision(true, l.made, l.started, cap) == DelayedError then l.(phase := BatchModel.Waiting)
               else BatchModel.FinishLane(l, BatchModel.Throws(false), at)
  {
  }
}
