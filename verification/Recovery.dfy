/**
 * The recovery supervisor of scripts/S98gzh_ipc: the commands, the monitor's tick and the intent file, which
 * take turns under the service lock. Processes, the clock and the outcome of starting and stopping are inputs.
 */
module Recovery {
  import opened Common

  // -------------------------------------------------------------- the files

  datatype Intent = Off | Run | Blocked

  /** The intent file: none until the first command. */
  datatype Desired = Desired(intent: Intent, token: nat)

  datatype Phase = Starting | Ready | Stopping | Unknown

  /** What the PID file shows; `None` if no such process runs. A heartbeat that is not a number is missing. */
  datatype Process = Process(pid: nat, phase: Phase, heartbeat: Option<nat>)

  /**
   * What a tick meets: the time in seconds when it reads the clock, the process, whether stopping succeeds and how
   * long it takes, and whether others run after it.
   */
  datatype Scene = Scene(now: nat, process: Option<Process>, stops: bool, stopping: nat, conflict: bool)

  // ---------------------------------------------------------------- the log

  /** How a tick ended. */
  datatype Act = Ignored | Blocking | Healthy(pid: nat) | Grace | AbsenceLogged | TooEarly | AutoStart

  /** `at`: when it wrote its line in the log. `anew`: it saw a new token. `refilled`: it reset the budget. */
  datatype Event =
    | Ticked(scene: Scene, at: nat, act: Act, anew: bool, refilled: bool)
    | Commanded(intent: Intent, token: nat)
    | MonitorDied

  datatype State = State(
    desired: Option<Desired>, alive: bool, observed: Option<nat>, attempts: nat, nextTry: nat,
    healthySince: nat, healthyPid: Option<nat>, log: seq<Event>)

  const INITIAL := State(None, false, None, 0, 0, 0, None, [])

  // --------------------------------------------------------------- the steps

  predicate Wanted(s: State) {
    s.desired.Some? && s.desired.value.intent == Run
  }

  function Tick(s: State, e: Scene): State {
    if !s.alive then s
    else if !Wanted(s) then s.(log := s.log + [Ticked(e, e.now, Ignored, false, false)])
    else
      var token := s.desired.value.token;
      var anew := s.observed != Some(token);
      var t :=
        if anew then s.(observed := Some(token), attempts := 0, nextTry := 0, healthySince := 0, healthyPid := None)
        else s;
      var blocked := t.(desired := Some(Desired(Blocked, token)));
      match e.process
      case None => Missing(t, e, e.now, anew)
      case Some(p) =>
        if p.heartbeat.None? then Ended(blocked, e, e.now, Blocking, anew, false)
        else
          var age := e.now - p.heartbeat.value;
          if p.phase == Ready && age < 60 then
            var since := if t.healthyPid != Some(p.pid) then e.now else t.healthySince;
            var refilled := e.now - since >= 300;
            Ended(t.(healthyPid := Some(p.pid), healthySince := since, nextTry := 0,
                     attempts := if refilled then 0 else t.attempts), e, e.now, Healthy(p.pid), anew, refilled)
          else
            var u := t.(healthySince := 0, healthyPid := None);
            if (p.phase == Starting && age < 60) || (p.phase == Stopping && age < 30) then
              Ended(u, e, e.now, Grace, anew, false)
            else if p.phase == Unknown then
              Ended(u.(desired := Some(Desired(Blocked, token))), e, e.now, Blocking, anew, false)
            else if !e.stops then
              Ended(u.(desired := Some(Desired(Blocked, token))), e, e.now + e.stopping, Blocking, anew, false)
            else Missing(u, e, e.now + e.stopping, anew)
  }

  /** The rest of a tick, once no process of ours is running. It still goes by the clock it read at its start. */
  function Missing(s: State, e: Scene, at: nat, anew: bool): State
    requires s.desired.Some?
  {
    var t := s.(healthySince := 0, healthyPid := None);
    if e.conflict || t.attempts >= 3 then
      Ended(t.(desired := Some(Desired(Blocked, t.desired.value.token))), e, at, Blocking, anew, false)
    else if t.nextTry == 0 then Ended(t.(nextTry := e.now + 10 * (t.attempts + 1)), e, at, AbsenceLogged, anew, false)
    else if e.now < t.nextTry then Ended(t, e, at, TooEarly, anew, false)
    else Ended(t.(attempts := t.attempts + 1, nextTry := 0), e, at, AutoStart, anew, false)
  }

  function Ended(s: State, e: Scene, at: nat, act: Act, anew: bool, refilled: bool): State {
    s.(log := s.log + [Ticked(e, at, act, anew, refilled)])
  }

  function Write(s: State, intent: Intent, token: nat): State {
    s.(desired := Some(Desired(intent, token)), log := s.log + [Commanded(intent, token)])
  }

  /** A monitor is started if none runs; it begins with empty memory. */
  function EnsureMonitor(s: State): State {
    if s.alive then s
    else s.(alive := true, observed := None, attempts := 0, nextTry := 0, healthySince := 0, healthyPid := None)
  }

  datatype Input =
    | Tock(scene: Scene)
    | Start(token: nat, ensured: bool)
    | Stop(token: nat)
    | Restart(token: nat, stops: bool, ensured: bool)
    | Die

  function Step(s: State, i: Input): State {
    match i
    case Tock(e) => Tick(s, e)
    case Start(token, ensured) =>
      var t := Write(s, Run, token);
      if ensured then EnsureMonitor(t) else t
    case Stop(token) => Write(s, Off, token)
    case Restart(token, stops, ensured) =>
      var t := Write(s, Off, token);
      if !stops then t
      else
        var u := Write(t, Run, token);
        if ensured then EnsureMonitor(u) else u
    case Die => if s.alive then s.(alive := false, log := s.log + [MonitorDied]) else s
  }

  function RunOf(inputs: seq<Input>): State {
    if inputs == [] then INITIAL else Step(RunOf(inputs[..|inputs|-1]), inputs[|inputs|-1])
  }

  // ------------------------------------------------- the monitor of the script

  class Supervisor {
    var desired: Option<Desired>
    var alive: bool
    var observed: Option<nat>
    var attempts: nat
    var nextTry: nat
    var healthySince: nat
    var healthyPid: Option<nat>
    ghost var log: seq<Event>

    ghost function View(): State
      reads this
    {
      State(desired, alive, observed, attempts, nextTry, healthySince, healthyPid, log)
    }

    constructor ()
      ensures View() == INITIAL
    {
      desired, alive, observed, attempts := None, false, None, 0;
      nextTry, healthySince, healthyPid, log := 0, 0, None, [];
    }

    method BlockRecovery(token: nat)
      modifies this`desired
      ensures desired == Some(Desired(Blocked, token))
    {
      desired := Some(Desired(Blocked, token));
    }

    method MonitorTick(e: Scene)
      requires alive
      modifies this
      ensures View() == Tick(old(View()), e)
    {
      if desired.None? || desired.value.intent != Run {
        log := log + [Ticked(e, e.now, Ignored, false, false)];
        return;
      }
      var token := desired.value.token;
      ghost var at := e.now;
      ghost var anew := observed != Some(token);
      if observed != Some(token) {
        observed, attempts, nextTry, healthySince, healthyPid := Some(token), 0, 0, 0, None;
      }
      if e.process.Some? {
        var p := e.process.value;
        if p.heartbeat.None? {
          BlockRecovery(token);
          log := log + [Ticked(e, at, Blocking, anew, false)];
          return;
        }
        var age := e.now - p.heartbeat.value;
        if p.phase == Ready && age < 60 {
          if healthyPid != Some(p.pid) {
            healthyPid, healthySince := Some(p.pid), e.now;
          }
          if e.now - healthySince >= 300 {
            attempts := 0;
          }
          nextTry := 0;
          log := log + [Ticked(e, at, Healthy(p.pid), anew, e.now - healthySince >= 300)];
          return;
        }
        healthySince, healthyPid := 0, None;
        if (p.phase == Starting && age < 60) || (p.phase == Stopping && age < 30) {
          log := log + [Ticked(e, at, Grace, anew, false)];
          return;
        }
        if p.phase == Unknown {
          BlockRecovery(token);
          log := log + [Ticked(e, at, Blocking, anew, false)];
          return;
        }
        at := at + e.stopping;
        if !e.stops {
          BlockRecovery(token);
          log := log + [Ticked(e, at, Blocking, anew, false)];
          return;
        }
      }
      healthySince, healthyPid := 0, None;
      if e.conflict || attempts >= 3 {
        BlockRecovery(token);
        log := log + [Ticked(e, at, Blocking, anew, false)];
        return;
      }
      if nextTry == 0 {
        nextTry := e.now + 10 * (attempts + 1);
        log := log + [Ticked(e, at, AbsenceLogged, anew, false)];
        return;
      }
      if e.now < nextTry {
        log := log + [Ticked(e, at, TooEarly, anew, false)];
        return;
      }
      attempts, nextTry := attempts + 1, 0;
      log := log + [Ticked(e, at, AutoStart, anew, false)];
    }
  }

  // ------------------------------------------------ what the log alone says

  /** Automatic starts since the budget was last renewed, by a new token or by healthy time. */
  function StartsSince(log: seq<Event>): nat {
    if log == [] then 0
    else
      var e := log[|log|-1];
      match e
      case Ticked(_, _, act, anew, refilled) =>
        (if anew || refilled then 0 else StartsSince(log[..|log|-1])) + if act == AutoStart then 1 else 0
      case _ => StartsSince(log[..|log|-1])
  }

  /** The absence that waits for its delay to pass, by the clock the tick that logged it had read. */
  function Pending(log: seq<Event>): Option<nat> {
    if log == [] then None
    else
      var e := log[|log|-1];
      match e
      case Ticked(scene, _, act, anew, _) =>
        if act == AbsenceLogged then Some(scene.now)
        else if anew || act == AutoStart || act.Healthy? then None
        else Pending(log[..|log|-1])
      case _ => Pending(log[..|log|-1])
  }

  /** The process that was found healthy by every event up to the end of the log, and since when. */
  function HealthyRun(log: seq<Event>): Option<(nat, nat)> {
    if log == [] then None
    else
      var e := log[|log|-1];
      if e.Ticked? && e.act.Healthy? then
        var before := HealthyRun(log[..|log|-1]);
        if !e.anew && before.Some? && before.value.0 == e.act.pid then before else Some((e.act.pid, e.scene.now))
      else None
  }

  /** The intent as the log has it: the last command, or the block after it. */
  function IntentOf(log: seq<Event>): Option<Intent> {
    if log == [] then None
    else
      var e := log[|log|-1];
      match e
      case Ticked(_, _, act, _, _) => if act == Blocking then Some(Blocked) else IntentOf(log[..|log|-1])
      case Commanded(intent, _) => Some(intent)
      case MonitorDied => IntentOf(log[..|log|-1])
  }

  ghost predicate Said(log: seq<Event>, token: nat) {
    exists i :: 0 <= i < |log| && log[i].Commanded? && log[i].token == token
  }

  /** The monitor has acted since the last command. */
  function Acted(log: seq<Event>): bool {
    if log == [] then false
    else
      var e := log[|log|-1];
      match e
      case Ticked(_, _, act, _, _) => act != Ignored || Acted(log[..|log|-1])
      case Commanded(_, _) => false
      case MonitorDied => Acted(log[..|log|-1])
  }

  // -------------------------------------------------- what a scene calls for

  predicate Well(e: Scene, pid: nat) {
    && e.process.Some? && e.process.value.pid == pid && e.process.value.phase == Ready
    && e.process.value.heartbeat.Some? && e.now - e.process.value.heartbeat.value < 60
  }

  /** It is starting or stopping, and has not yet taken too long. */
  predicate InGrace(e: Scene) {
    && e.process.Some? && e.process.value.heartbeat.Some?
    && var age := e.now - e.process.value.heartbeat.value;
    (e.process.value.phase == Starting && age < 60) || (e.process.value.phase == Stopping && age < 30)
  }

  /** The heartbeat of a process in a known state is too old. */
  predicate Stale(e: Scene) {
    && e.process.Some? && e.process.value.heartbeat.Some? && e.process.value.phase != Unknown
    && e.now - e.process.value.heartbeat.value >= if e.process.value.phase == Stopping then 30 else 60
  }

  /** When a tick that met this scene ends: stopping a stale process takes its time. */
  function EndOf(e: Scene): nat {
    if Stale(e) then e.now + e.stopping else e.now
  }

  /** There is no process of ours, or there was a stale one and it was stopped. */
  predicate Absent(e: Scene) {
    e.process.None? || (Stale(e) && e.stops)
  }

  /** The five causes of a block, in the order of the script. */
  predicate MustBlock(e: Scene, starts: nat) {
    || (e.process.Some? && e.process.value.heartbeat.None?)
    || (e.process.Some? && e.process.value.phase == Unknown)
    || (Stale(e) && !e.stops)
    || (Absent(e) && e.conflict)
    || (Absent(e) && starts >= 3)
  }

  predicate MayStart(e: Scene, starts: nat) {
    Absent(e) && !e.conflict && starts < 3
  }

  /** The act is the one this scene calls for, after so many starts, with a start due or not. */
  predicate Fits(e: Scene, act: Act, starts: nat, due: Option<nat>) {
    match act
    case Ignored => false
    case Blocking => MustBlock(e, starts)
    case Healthy(pid) => Well(e, pid)
    case Grace => InGrace(e)
    case AbsenceLogged => MayStart(e, starts) && due == None
    case TooEarly => MayStart(e, starts) && due.Some? && e.now < due.value
    case AutoStart => MayStart(e, starts) && due.Some? && e.now >= due.value
  }

  /** No scene calls for two different acts. */
  lemma {:induction false} OneActFits(e: Scene, x: Act, y: Act, starts: nat, due: Option<nat>)
    requires Fits(e, x, starts, due) && Fits(e, y, starts, due)
    ensures x == y
  {
  }

  // -------------------------------------------------------------- each event

  /** When the start after the absence that waits is due. */
  function DueAfter(log: seq<Event>): Option<nat> {
    match Pending(log)
    case None => None
    case Some(t) => Some(t + 10 * (StartsSince(log) + 1))
  }

  /**
   * A tick looks the other way exactly if the intent is not `run`; otherwise it does what its scene calls for after
   * what the log shows, the first tick after a command starting afresh.
   */
  ghost predicate Warranted(log: seq<Event>, i: nat)
    requires i < |log|
  {
    log[i].Ticked? ==>
      var before, e := log[..i], log[i];
      && (e.act == Ignored <==> IntentOf(before) != Some(Run))
      && (e.act != Ignored ==>
            && e.anew == !Acted(before) && e.at == EndOf(e.scene)
            && Fits(e.scene, e.act,
                    if e.anew then 0 else StartsSince(before), if e.anew then None else DueAfter(before)))
      && (e.refilled <==> HealthyRun(log[..i+1]).Some? && e.scene.now - HealthyRun(log[..i+1]).value.1 >= 300)
  }

  ghost predicate Justified(log: seq<Event>) {
    forall i :: 0 <= i < |log| ==> Warranted(log, i)
  }

  /** The monitor has seen the token in force: what it remembers is about this start. */
  predicate InForce(s: State) {
    s.alive && Wanted(s) && s.observed == Some(s.desired.value.token)
  }

  ghost predicate Remembers(s: State) {
    && s.attempts == StartsSince(s.log)
    && s.nextTry == (match Pending(s.log) case Some(t) => t + 10 * (s.attempts + 1) case None => 0)
    && (match HealthyRun(s.log)
        case Some((pid, since)) => s.healthyPid == Some(pid) && s.healthySince == since
        case None => s.healthyPid == None)
  }

  ghost predicate Inv(s: State) {
    && IntentOf(s.log) == (if s.desired.Some? then Some(s.desired.value.intent) else None)
    && (s.observed.Some? ==> Said(s.log, s.observed.value))
    && (s.desired.Some? ==> Said(s.log, s.desired.value.token))
    && StartsSince(s.log) <= 3
    && (s.alive && Wanted(s) ==> (Acted(s.log) <==> s.observed == Some(s.desired.value.token)))
    && (InForce(s) ==> Remembers(s))
    && Justified(s.log)
  }

  /** The token of a new start has not been used before. */
  ghost predicate NewToken(s: State, i: Input) {
    match i
    case Start(token, _) => !Said(s.log, token)
    case Restart(token, _, _) => !Said(s.log, token)
    case _ => true
  }

  ghost predicate NewTokens(inputs: seq<Input>) {
    forall k :: 0 <= k < |inputs| ==> NewToken(RunOf(inputs[..k]), inputs[k])
  }

  // -------------------------------------------------------------- the proofs

  lemma {:induction false} JustifiedLonger(log: seq<Event>, e: Event)
    requires Justified(log) && Warranted(log + [e], |log|)
    ensures Justified(log + [e])
  {
    var longer := log + [e];
    forall i | 0 <= i < |longer| ensures Warranted(longer, i) {
      if i < |log| {
        assert longer[..i] == log[..i] && longer[..i+1] == log[..i+1];
        assert Warranted(log, i);
      }
    }
  }

  lemma {:induction false} SaidLonger(log: seq<Event>, e: Event, token: nat)
    ensures Said(log + [e], token) <==> Said(log, token) || (e.Commanded? && e.token == token)
  {
    if Said(log, token) {
      var i :| 0 <= i < |log| && log[i].Commanded? && log[i].token == token;
      assert (log + [e])[i] == log[i];
    }
    if e.Commanded? && e.token == token { assert (log + [e])[|log|] == e; }
  }

  lemma {:induction false} LogFacts(log: seq<Event>, e: Event)
    ensures (log + [e])[..|log|] == log && (log + [e])[|log|] == e
    ensures (log + [e])[..|log|+1] == log + [e]
  {
  }

  /** How a tick that acts changes what the monitor remembers. */
  ghost predicate Acts(s: State, t: State, e: Scene, act: Act, anew: bool, refilled: bool) {
    && s.alive && Wanted(s) && act != Ignored
    && var token := s.desired.value.token;
    var attempts, nextTry := if anew then 0 else s.attempts, if anew then 0 else s.nextTry;
    && (anew <==> s.observed != Some(token))
    && Fits(e, act, attempts, if nextTry == 0 then None else Some(nextTry))
    && t.log == s.log + [Ticked(e, EndOf(e), act, anew, refilled)]
    && t.alive && t.observed == Some(token)
    && t.desired == Some(Desired(if act == Blocking then Blocked else Run, token))
    && t.attempts == (if refilled then 0 else attempts) + (if act == AutoStart then 1 else 0)
    && t.nextTry == (if act == AbsenceLogged then e.now + 10 * (t.attempts + 1)
                     else if act == AutoStart || act.Healthy? then 0 else nextTry)
    && (if act.Healthy? then
          && t.healthyPid == Some(act.pid)
          && t.healthySince == if !anew && s.healthyPid == Some(act.pid) then s.healthySince else e.now
        else act != Blocking ==> t.healthyPid == None)
    && (refilled <==> act.Healthy? && e.now - t.healthySince >= 300)
  }

  lemma {:induction false} MissingActs(s: State, t: State, e: Scene, anew: bool)
    requires s.alive && Wanted(s) && (anew <==> s.observed != Some(s.desired.value.token))
    requires t.log == s.log && t.alive && t.desired == s.desired && t.observed == Some(s.desired.value.token)
    requires if anew then t.attempts == 0 && t.nextTry == 0 else t.attempts == s.attempts && t.nextTry == s.nextTry
    requires Absent(e)
    ensures
      var u := Missing(t, e, EndOf(e), anew);
      exists act :: Acts(s, u, e, act, anew, false)
  {
    var u := Missing(t, e, EndOf(e), anew);
    var act := u.log[|s.log|].act;
    assert Acts(s, u, e, act, anew, false);
  }

  /** A tick looks the other way or acts. */
  lemma {:induction false} TickActs(s: State, e: Scene)
    requires s.alive && Wanted(s)
    ensures exists act, anew, refilled :: Acts(s, Tick(s, e), e, act, anew, refilled)
  {
    var t, token := Tick(s, e), s.desired.value.token;
    var anew := s.observed != Some(token);
    var seen :=
      if anew then s.(observed := Some(token), attempts := 0, nextTry := 0, healthySince := 0, healthyPid := None)
      else s;
    if e.process.None? {
      MissingActs(s, seen, e, anew);
    } else {
      var p := e.process.value;
      var u := seen.(healthySince := 0, healthyPid := None);
      if p.heartbeat.Some? && !(p.phase == Ready && e.now - p.heartbeat.value < 60)
         && !(p.phase == Starting && e.now - p.heartbeat.value < 60)
             && !(p.phase == Stopping && e.now - p.heartbeat.value < 30)
         && p.phase != Unknown && e.stops {
        MissingActs(s, u, e, anew);
      } else {
        var ev := t.log[|s.log|];
        assert Acts(s, t, e, ev.act, ev.anew, ev.refilled);
      }
    }
  }

  lemma {:induction false} ActsRemember(s: State, t: State, e: Scene, act: Act, anew: bool, refilled: bool)
    requires Inv(s) && Acts(s, t, e, act, anew, refilled)
    ensures StartsSince(t.log) <= 3 && (InForce(t) ==> Remembers(t))
  {
    LogFacts(s.log, Ticked(e, EndOf(e), act, anew, refilled));
    assert !anew ==> Remembers(s);
  }

  lemma {:induction false} ActsJustify(s: State, t: State, e: Scene, act: Act, anew: bool, refilled: bool)
    requires Inv(s) && Acts(s, t, e, act, anew, refilled)
    ensures Justified(t.log)
  {
    var ev := Ticked(e, EndOf(e), act, anew, refilled);
    LogFacts(s.log, ev);
    assert !anew ==> Remembers(s);
    JustifiedLonger(s.log, ev);
  }

  lemma {:induction false} ActsKeep(s: State, t: State, e: Scene, act: Act, anew: bool, refilled: bool)
    requires Inv(s) && Acts(s, t, e, act, anew, refilled)
    ensures Inv(t)
  {
    var ev := Ticked(e, EndOf(e), act, anew, refilled);
    ActsRemember(s, t, e, act, anew, refilled);
    ActsJustify(s, t, e, act, anew, refilled);
    SaidLonger(s.log, ev, s.desired.value.token);
    LogFacts(s.log, ev);
  }

  lemma {:induction false} TickKeeps(s: State, e: Scene)
    requires Inv(s)
    ensures Inv(Tick(s, e))
  {
    var t := Tick(s, e);
    if s.alive && Wanted(s) {
      TickActs(s, e);
      var act, anew, refilled :| Acts(s, t, e, act, anew, refilled);
      ActsKeep(s, t, e, act, anew, refilled);
    } else if s.alive {
      Unnoticed(s, t, Ticked(e, e.now, Ignored, false, false));
    }
  }

  /** An event that changes nothing but the log. */
  lemma {:induction false} Unnoticed(s: State, t: State, ev: Event)
    requires Inv(s) && t == s.(log := s.log + [ev], alive := t.alive) && !InForce(t)
    requires if ev == MonitorDied then !t.alive
             else ev.Ticked? && ev.act == Ignored && !ev.anew && !ev.refilled && s.alive && t.alive && !Wanted(s)
    ensures Inv(t)
  {
    LogFacts(s.log, ev);
    if s.observed.Some? { SaidLonger(s.log, ev, s.observed.value); }
    if s.desired.Some? { SaidLonger(s.log, ev, s.desired.value.token); }
    JustifiedLonger(s.log, ev);
  }

  /** A command under a new token, or one that turns recovery off: the monitor has not seen it yet. */
  lemma {:induction false} WriteKeeps(s: State, intent: Intent, token: nat)
    requires Inv(s) && (intent == Run ==> s.observed != Some(token))
    ensures Inv(Write(s, intent, token)) && !InForce(Write(s, intent, token)) && !Acted(Write(s, intent, token).log)
  {
    var t, ev := Write(s, intent, token), Commanded(intent, token);
    LogFacts(s.log, ev);
    SaidLonger(s.log, ev, token);
    if s.observed.Some? { SaidLonger(s.log, ev, s.observed.value); }
    JustifiedLonger(s.log, ev);
  }

  lemma {:induction false} EnsureKeeps(s: State)
    requires Inv(s) && !InForce(s) && !Acted(s.log)
    ensures Inv(EnsureMonitor(s))
  {
  }

  lemma {:induction false} StepKeeps(s: State, i: Input)
    requires Inv(s) && NewToken(s, i)
    ensures Inv(Step(s, i))
  {
    match i
    case Tock(e) => TickKeeps(s, e);
    case Start(token, ensured) =>
      WriteKeeps(s, Run, token);
      EnsureKeeps(Write(s, Run, token));
    case Stop(token) => WriteKeeps(s, Off, token);
    case Restart(token, stops, ensured) =>
      WriteKeeps(s, Off, token);
      if stops {
        WriteKeeps(Write(s, Off, token), Run, token);
        EnsureKeeps(Write(Write(s, Off, token), Run, token));
      }
    case Die => if s.alive { Unnoticed(s, s.(alive := false, log := s.log + [MonitorDied]), MonitorDied); }
  }

  lemma {:induction false} RunKeeps(inputs: seq<Input>)
    requires NewTokens(inputs)
    ensures Inv(RunOf(inputs))
  {
    if inputs != [] {
      var n := |inputs| - 1;
      forall k | 0 <= k < n ensures NewToken(RunOf(inputs[..n][..k]), inputs[..n][k]) {
        assert inputs[..n][..k] == inputs[..k] && NewToken(RunOf(inputs[..k]), inputs[k]);
      }
      RunKeeps(inputs[..n]);
      assert NewToken(RunOf(inputs[..n]), inputs[n]);
      StepKeeps(RunOf(inputs[..n]), inputs[n]);
    }
  }

  // -------------------------------------------------------------- the results

  lemma {:induction false} NeverMoreThanThree(log: seq<Event>, n: nat)
    requires Justified(log) && n <= |log|
    ensures StartsSince(log[..n]) <= 3
  {
    if n > 0 {
      NeverMoreThanThree(log, n - 1);
      assert log[..n][..n-1] == log[..n-1];
      assert Warranted(log, n - 1);
    }
  }

  /**
   * The budget, over every interleaving of commands with new tokens, ticks and deaths of the monitor: at no point
   * have there been more than three automatic starts since the budget was last renewed, and once the monitor has
   * seen the token in force its counter is exactly their number.
   */
  lemma {:induction false} BudgetHolds(inputs: seq<Input>, n: nat)
    requires NewTokens(inputs) && n <= |RunOf(inputs).log|
    ensures StartsSince(RunOf(inputs).log[..n]) <= 3
    ensures InForce(RunOf(inputs)) ==> RunOf(inputs).attempts == StartsSince(RunOf(inputs).log)
  {
    RunKeeps(inputs);
    NeverMoreThanThree(RunOf(inputs).log, n);
  }

  /** What tick j starts from, by the log before it: a fresh budget for the first tick after a command. */
  function StartsAt(log: seq<Event>, j: nat): nat
    requires j < |log|
  {
    if Acted(log[..j]) then StartsSince(log[..j]) else 0
  }

  function DueAt(log: seq<Event>, j: nat): Option<nat>
    requires j < |log|
  {
    if Acted(log[..j]) then DueAfter(log[..j]) else None
  }

  /**
   * Ticks are what they say, over every run: a tick under a `run` intent is logged as healthy, in grace, blocking or
   * one of the three ways to meet an absence exactly if its scene, after the starts so far, calls for that.
   */
  lemma {:induction false} TicksAreTrue(inputs: seq<Input>, j: nat)
    requires NewTokens(inputs) && j < |RunOf(inputs).log| && RunOf(inputs).log[j].Ticked?
    ensures
      var log, e := RunOf(inputs).log, RunOf(inputs).log[j];
      var starts, due := StartsAt(log, j), DueAt(log, j);
      && (e.act == Ignored <==> IntentOf(log[..j]) != Some(Run))
      && (e.act != Ignored ==>
            && (forall pid :: e.act == Healthy(pid) <==> Well(e.scene, pid))
            && (e.act == Grace <==> InGrace(e.scene))
            && (e.act == Blocking <==> MustBlock(e.scene, starts))
            && (e.act == AbsenceLogged <==> MayStart(e.scene, starts) && due == None)
            && (e.act == TooEarly <==> MayStart(e.scene, starts) && due.Some? && e.scene.now < due.value)
            && (e.act == AutoStart <==> MayStart(e.scene, starts) && due.Some? && e.scene.now >= due.value))
  {
    RunKeeps(inputs);
    var log, e := RunOf(inputs).log, RunOf(inputs).log[j];
    assert Warranted(log, j);
    if e.act != Ignored {
      var starts, due := StartsAt(log, j), DueAt(log, j);
      assert Fits(e.scene, e.act, starts, due);
      forall act | Fits(e.scene, act, starts, due) ensures act == e.act {
        OneActFits(e.scene, act, e.act, starts, due);
      }
      assert forall pid :: Well(e.scene, pid) ==> Fits(e.scene, Healthy(pid), starts, due);
      assert InGrace(e.scene) ==> Fits(e.scene, Grace, starts, due);
      assert MustBlock(e.scene, starts) ==> Fits(e.scene, Blocking, starts, due);
      assert MayStart(e.scene, starts) && due == None ==> Fits(e.scene, AbsenceLogged, starts, due);
      assert MayStart(e.scene, starts) && due.Some? && e.scene.now < due.value ==> Fits(e.scene, TooEarly, starts, due);
      assert MayStart(e.scene, starts) && due.Some? && e.scene.now >= due.value ==>
          Fits(e.scene, AutoStart, starts, due);
    }
  }

  /** Nothing from event i + 1 to the end undoes the absence logged at i. */
  ghost predicate StillAbsent(log: seq<Event>, i: nat) {
    && i < |log| && log[i].Ticked? && log[i].act == AbsenceLogged
    && forall k :: i < k < |log| && log[k].Ticked? ==> !log[k].anew && log[k].act != AutoStart && !log[k].act.Healthy?
  }

  lemma {:induction false} PendingMeans(log: seq<Event>) returns (i: nat)
    requires Pending(log).Some?
    ensures StillAbsent(log, i) && log[i].scene.now == Pending(log).value
  {
    var n := |log| - 1;
    if log[n].Ticked? && log[n].act == AbsenceLogged {
      i := n;
    } else {
      i := PendingMeans(log[..n]);
      assert StillAbsent(log[..n], i);
    }
  }

  /** The delay after an absence, by the automatic starts before it. */
  function Delay(log: seq<Event>): nat {
    10 * (StartsSince(log) + 1)
  }

  /**
   * Delay: an automatic start happens under a `run` intent, after an absence that was logged and that nothing has
   * undone since. From the clock read by the tick that logged it there are 10, 20 or 30 seconds, by the starts
   * before; from its line in the log it is less by what stopping a process took, and nothing less if none was there.
   */
  lemma {:induction false} StartsAreDelayed(inputs: seq<Input>, j: nat) returns (i: nat)
    requires NewTokens(inputs) && j < |RunOf(inputs).log|
    requires RunOf(inputs).log[j].Ticked? && RunOf(inputs).log[j].act == AutoStart
    ensures
      var log := RunOf(inputs).log;
      && IntentOf(log[..j]) == Some(Run) && StillAbsent(log[..j], i)
      && log[j].at >= log[j].scene.now >= log[i].scene.now + Delay(log[..j])
      && log[j].scene.now + log[i].scene.stopping >= log[i].at + Delay(log[..j])
      && (log[i].scene.process.None? ==> log[j].scene.now >= log[i].at + Delay(log[..j]))
      && Absent(log[i].scene) && !log[i].scene.conflict && Absent(log[j].scene) && !log[j].scene.conflict
  {
    RunKeeps(inputs);
    var log := RunOf(inputs).log;
    assert Warranted(log, j);
    i := PendingMeans(log[..j]);
    assert Warranted(log, i);
  }

  /** From event i to the end every event is a tick that found this process healthy. */
  ghost predicate HealthyThroughout(log: seq<Event>, i: nat, pid: nat) {
    i < |log| && forall k :: i <= k < |log| ==> log[k].Ticked? && log[k].act == Healthy(pid) && (k > i ==> !log[k].anew)
  }

  lemma {:induction false} HealthyRunMeans(log: seq<Event>) returns (i: nat)
    requires HealthyRun(log).Some?
    ensures HealthyThroughout(log, i, HealthyRun(log).value.0) && log[i].scene.now == HealthyRun(log).value.1
  {
    var n := |log| - 1;
    var before := HealthyRun(log[..n]);
    if !log[n].anew && before.Some? && before.value.0 == log[n].act.pid {
      i := HealthyRunMeans(log[..n]);
      assert HealthyThroughout(log[..n], i, before.value.0);
    } else {
      i := n;
    }
  }

  /** Renewal: healthy time renews the budget only after 300 seconds of one process, without any other event. */
  lemma {:induction false} RefillsAreEarned(inputs: seq<Input>, j: nat) returns (i: nat, pid: nat)
    requires NewTokens(inputs) && j < |RunOf(inputs).log|
    requires RunOf(inputs).log[j].Ticked? && RunOf(inputs).log[j].refilled
    ensures
      var log := RunOf(inputs).log;
      && HealthyThroughout(log[..j+1], i, pid) && log[j].scene.now - log[i].scene.now >= 300
      && forall k :: i <= k <= j ==> log[k].Ticked? && Well(log[k].scene, pid)
  {
    RunKeeps(inputs);
    var log := RunOf(inputs).log;
    assert Warranted(log, j);
    i := HealthyRunMeans(log[..j+1]);
    pid := HealthyRun(log[..j+1]).value.0;
    forall k | i <= k <= j ensures log[k].Ticked? && Well(log[k].scene, pid) {
      assert log[..j+1][k] == log[k] && Warranted(log, k);
    }
  }

  lemma {:induction false} IntentStays(log: seq<Event>, i: nat, j: nat)
    requires Justified(log) && i <= j <= |log| && IntentOf(log[..i]) == Some(Blocked)
    requires forall k :: i <= k < j ==> !log[k].Commanded?
    ensures IntentOf(log[..j]) == Some(Blocked)
    ensures forall k :: i <= k < j && log[k].Ticked? ==> log[k].act == Ignored
    decreases j - i
  {
    if i < j {
      IntentStays(log, i, j - 1);
      assert log[..j][..j-1] == log[..j-1];
      assert Warranted(log, j - 1);
    }
  }

  /** Fuse: once recovery is blocked the monitor does nothing until an operator's command. */
  lemma {:induction false} BlockedStays(inputs: seq<Input>, i: nat, j: nat)
    requires NewTokens(inputs) && i <= j <= |RunOf(inputs).log| && IntentOf(RunOf(inputs).log[..i]) == Some(Blocked)
    requires forall k :: i <= k < j ==> !RunOf(inputs).log[k].Commanded?
    ensures IntentOf(RunOf(inputs).log[..j]) == Some(Blocked)
    ensures forall k :: i <= k < j && RunOf(inputs).log[k].Ticked? ==> RunOf(inputs).log[k].act == Ignored
  {
    RunKeeps(inputs);
    IntentStays(RunOf(inputs).log, i, j);
  }

  // ---------------------------------------- the delay from the line in the log

  /** The monitor sleeps five seconds after each tick. */
  ghost predicate Paced(log: seq<Event>, i: nat) {
    forall a, b :: i <= a < b < |log| && log[a].Ticked? && log[b].Ticked? ==> log[a].at + 5 <= log[b].scene.now
  }

  /** Each automatic start from the absence logged at i comes the whole delay after its line. */
  ghost predicate FullDelay(log: seq<Event>, i: nat) {
    forall j :: i < j < |log| && log[j].Ticked? && log[j].act == AutoStart && StillAbsent(log[..j], i) ==>
      log[j].at >= log[i].at + Delay(log[..j])
  }

  /** However the run goes on, at the monitor's pace. */
  ghost predicate FullDelayAfter(inputs: seq<Input>, i: nat) {
    forall more: seq<Input> :: NewTokens(inputs + more) && Paced(RunOf(inputs + more).log, i) ==>
      FullDelay(RunOf(inputs + more).log, i)
  }

  lemma {:induction false} RunSnoc(inputs: seq<Input>, i: Input)
    ensures RunOf(inputs + [i]) == Step(RunOf(inputs), i)
  {
    assert (inputs + [i])[..|inputs|] == inputs;
  }

  lemma {:induction false} TockIsNew(inputs: seq<Input>, e: Scene)
    requires NewTokens(inputs)
    ensures NewTokens(inputs + [Tock(e)])
  {
    var longer := inputs + [Tock(e)];
    forall k | 0 <= k < |longer| ensures NewToken(RunOf(longer[..k]), longer[k]) {
      if k < |inputs| {
        assert longer[..k] == inputs[..k] && longer[k] == inputs[k];
        assert NewToken(RunOf(inputs[..k]), inputs[k]);
      }
    }
  }

  /** The absence a start waits for is the only one. */
  lemma {:induction false} StillPending(log: seq<Event>, i: nat, n: nat)
    requires Justified(log) && n <= |log| && StillAbsent(log[..n], i)
    ensures Pending(log[..n]) == Some(log[i].scene.now)
  {
    assert log[..n][i] == log[i] && log[..n][..n-1] == log[..n-1];
    if i < n - 1 {
      assert StillAbsent(log[..n-1], i) by {
        forall k | i < k < n - 1 && log[..n-1][k].Ticked?
          ensures !log[k].anew && log[k].act != AutoStart && !log[k].act.Healthy?
        {
          assert log[..n][k] == log[k];
        }
      }
      StillPending(log, i, n - 1);
      assert log[..n][n-1] == log[n-1] && Warranted(log, n - 1);
    }
  }

  lemma {:induction false} DelayFromClock(log: seq<Event>, i: nat, j: nat)
    requires Justified(log) && i < j < |log| && StillAbsent(log[..j], i) && log[j].Ticked? && log[j].act == AutoStart
    ensures log[j].at >= log[j].scene.now >= log[i].scene.now + Delay(log[..j])
  {
    StillPending(log, i, j);
    assert log[..j][j-1] == log[j-1] && Warranted(log, j);
  }

  lemma {:induction false} StepLogs(s: State, i: Input)
    ensures s.log <= Step(s, i).log
  {
    match i
    case Tock(e) => if s.alive && Wanted(s) { TickActs(s, e); }
    case _ =>
  }

  lemma {:induction false} LogGrows(inputs: seq<Input>, more: seq<Input>)
    ensures RunOf(inputs).log <= RunOf(inputs + more).log
    decreases |more|
  {
    if |more| == 0 {
      assert inputs + more == inputs;
    } else {
      var front, last := more[..|more|-1], more[|more|-1];
      assert inputs + more == inputs + front + [last];
      LogGrows(inputs, front);
      RunSnoc(inputs + front, last);
      StepLogs(RunOf(inputs + front), last);
    }
  }

  /** The tick that follows an absence as soon as it may: nothing runs, and the start is due. */
  function Next(e: Scene, starts: nat): Scene {
    var due := e.now + 10 * (starts + 1);
    var ready := EndOf(e) + 5;
    Scene(if due < ready then ready else due, None, true, 0, false)
  }

  lemma {:induction false} NextStarts(s: State, e: Scene)
    requires Inv(s) && s.alive && Wanted(s) && Tick(s, e).log[|s.log|].act == AbsenceLogged
    ensures
      var t := Tick(s, e);
      var f := Next(e, StartsSince(t.log));
      && |t.log| == |s.log| + 1 && t.log[|s.log|].scene == e && t.log[|s.log|].at == EndOf(e)
      && Tick(t, f).log == t.log + [Ticked(f, f.now, AutoStart, false, false)]
  {
    var t := Tick(s, e);
    TickActs(s, e);
    var act, anew, refilled :| Acts(s, t, e, act, anew, refilled);
    assert t.log[|s.log|] == Ticked(e, EndOf(e), act, anew, refilled);
    ActsKeep(s, t, e, act, anew, refilled);
    assert InForce(t);
  }

  lemma {:induction false} TwoTocks(inputs: seq<Input>, e: Scene, f: Scene)
    requires NewTokens(inputs)
    ensures RunOf(inputs + [Tock(e)]) == Tick(RunOf(inputs), e)
    ensures RunOf(inputs + [Tock(e)] + [Tock(f)]) == Tick(Tick(RunOf(inputs), e), f)
    ensures NewTokens(inputs + [Tock(e)] + [Tock(f)])
  {
    RunSnoc(inputs, Tock(e));
    RunSnoc(inputs + [Tock(e)], Tock(f));
    TockIsNew(inputs, e);
    TockIsNew(inputs + [Tock(e)], f);
  }

  lemma {:induction false} TooSoon(log: seq<Event>, i: nat, f: Scene)
    requires |log| == i + 1 && log[i].Ticked? && log[i].act == AbsenceLogged
    requires log[i].at + 5 <= f.now < log[i].at + Delay(log)
    ensures
      var longer := log + [Ticked(f, f.now, AutoStart, false, false)];
      Paced(longer, i) && !FullDelay(longer, i)
  {
    var longer := log + [Ticked(f, f.now, AutoStart, false, false)];
    assert longer[..i+1] == log && longer[i] == log[i] && longer[i+1].act == AutoStart;
    assert StillAbsent(log, i);
  }

  /** If stopping took time, the next tick may start the service before the delay after the line has passed. */
  lemma {:induction false} SoonAfterLine(inputs: seq<Input>, e: Scene)
    requires
      var s := RunOf(inputs);
      NewTokens(inputs) && s.alive && Wanted(s) && Tick(s, e).log[|s.log|].act == AbsenceLogged && EndOf(e) > e.now
    ensures !FullDelayAfter(inputs + [Tock(e)], |RunOf(inputs).log|)
  {
    var s, i := RunOf(inputs), |RunOf(inputs).log|;
    RunKeeps(inputs);
    NextStarts(s, e);
    var t := Tick(s, e);
    var f := Next(e, StartsSince(t.log));
    TwoTocks(inputs, e, f);
    TooSoon(t.log, i, f);
    assert !FullDelay(RunOf(inputs + [Tock(e)] + [Tock(f)]).log, i);
  }

  lemma {:induction false} LateEnough(inputs: seq<Input>, e: Scene)
    requires
      var s := RunOf(inputs);
      NewTokens(inputs) && s.alive && Wanted(s) && Tick(s, e).log[|s.log|].act == AbsenceLogged && EndOf(e) == e.now
    ensures FullDelayAfter(inputs + [Tock(e)], |RunOf(inputs).log|)
  {
    var s, i := RunOf(inputs), |RunOf(inputs).log|;
    RunKeeps(inputs);
    NextStarts(s, e);
    RunSnoc(inputs, Tock(e));
    forall more: seq<Input> | NewTokens(inputs + [Tock(e)] + more)
      ensures FullDelay(RunOf(inputs + [Tock(e)] + more).log, i)
    {
      var log := RunOf(inputs + [Tock(e)] + more).log;
      RunKeeps(inputs + [Tock(e)] + more);
      LogGrows(inputs + [Tock(e)], more);
      assert log[i] == Tick(s, e).log[i];
      forall j | i < j < |log| && log[j].Ticked? && log[j].act == AutoStart && StillAbsent(log[..j], i)
        ensures log[j].at >= log[i].at + Delay(log[..j])
      {
        DelayFromClock(log, i, j);
      }
    }
  }

  /**
   * The line `retry n/3 in 10s`: after the tick that wrote it, however the run goes on, no start comes earlier than
   * it says, if and only if the tick did not have to spend time on stopping a stale process.
   */
  lemma {:induction false} LineIsKeptExactly(inputs: seq<Input>, e: Scene)
    requires NewTokens(inputs) && RunOf(inputs).alive && Wanted(RunOf(inputs))
    requires Tick(RunOf(inputs), e).log[|RunOf(inputs).log|].act == AbsenceLogged
    ensures FullDelayAfter(inputs + [Tock(e)], |RunOf(inputs).log|) <==> !(Stale(e) && e.stopping > 0)
  {
    if Stale(e) && e.stopping > 0 { SoonAfterLine(inputs, e); } else { LateEnough(inputs, e); }
  }

  /** At 100 s a process is found whose last heartbeat was at 30; it exits 20 s after it was told to. */
  const HANGING := Scene(100, Some(Process(17, Ready, Some(30))), true, 20, false)
  const GONE := Scene(125, None, true, 0, false)

  /** `retry 1/3 in 10s` is written at 120, and the service started at 125. */
  lemma {:induction false} StartsTooSoon()
    ensures
      var inputs := [Start(1, true)] + [Tock(HANGING)] + [Tock(GONE)];
      var log := RunOf(inputs).log;
      && NewTokens(inputs) && Paced(log, 0)
      && log == [Commanded(Run, 1), Ticked(HANGING, 120, AbsenceLogged, true, false),
                 Ticked(GONE, 125, AutoStart, false, false)]
  {
    assert [] + [Start(1, true)] == [Start(1, true)];
    RunSnoc([], Start(1, true));
    RunSnoc([Start(1, true)], Tock(HANGING));
    RunSnoc([Start(1, true)] + [Tock(HANGING)], Tock(GONE));
    FirstStart(1);
    TockIsNew([Start(1, true)], HANGING);
    TockIsNew([Start(1, true)] + [Tock(HANGING)], GONE);
    assert RunOf([Start(1, true)]).log == [Commanded(Run, 1)];
    assert RunOf([Start(1, true)] + [Tock(HANGING)]).log ==
             [Commanded(Run, 1)] + [Ticked(HANGING, 120, AbsenceLogged, true, false)];
  }

  lemma {:induction false} FirstStart(token: nat)
    ensures NewTokens([Start(token, true)])
  {
    assert [Start(token, true)][..0] == [] && !Said([], token);
  }

  // ---------------------------------------------------- what must happen

  /** While a monitor is alive each tick is logged, and only then: with what it met and when it wrote its line. */
  lemma {:induction false} TicksAreLogged(inputs: seq<Input>, e: Scene)
    ensures
      var s, t := RunOf(inputs), RunOf(inputs + [Tock(e)]);
      && t.alive == s.alive
      && (!s.alive ==> t == s)
      && (s.alive ==>
            && |t.log| == |s.log| + 1 && t.log[..|s.log|] == s.log
            && t.log[|s.log|].Ticked? && t.log[|s.log|].scene == e
            && (t.log[|s.log|].act == Ignored <==> s.desired.None? || s.desired.value.intent != Run)
            && (t.log[|s.log|].act == Ignored ==> t == s.(log := t.log)))
  {
    var s := RunOf(inputs);
    RunSnoc(inputs, Tock(e));
    if s.alive && Wanted(s) { TickActs(s, e); }
  }

  /** What an operator's command leaves in the intent file, and whether a monitor runs after it. */
  lemma {:induction false} CommandsExactly(inputs: seq<Input>, i: Input)
    requires i.Start? || i.Stop? || i.Restart?
    ensures
      var s, t := RunOf(inputs), RunOf(inputs + [i]);
      var starts := i.Start? || (i.Restart? && i.stops);
      && t.desired == Some(Desired(if starts then Run else Off, i.token))
      && t.log == s.log + (if i.Restart? then [Commanded(Off, i.token)] else [])
                        + (if !i.Restart? || starts then [Commanded(if starts then Run else Off, i.token)] else [])
      && (t.alive <==> s.alive || (starts && i.ensured))
  {
    RunSnoc(inputs, i);
    assert RunOf(inputs).log + [] == RunOf(inputs).log;
    match i
    case Start(token, ensured) =>
    case Stop(token) =>
    case Restart(token, stops, ensured) =>
      var off := RunOf(inputs).log + [Commanded(Off, token)];
      assert off + [] == off;
  }

  /** A monitor that dies does nothing more until a start makes a new one, which begins with empty memory. */
  lemma {:induction false} DeathExactly(inputs: seq<Input>)
    ensures
      var s, t := RunOf(inputs), RunOf(inputs + [Die]);
      && !t.alive && t.desired == s.desired && t.log == s.log + if s.alive then [MonitorDied] else []
    ensures
      var t := RunOf(inputs + [Die]);
      forall token :: EnsureMonitor(Write(t, Run, token)) ==
        Write(t, Run, token).(alive := true, observed := None, attempts := 0, nextTry := 0, healthySince := 0,
                              healthyPid := None)
  {
    RunSnoc(inputs, Die);
    assert RunOf(inputs).log + [] == RunOf(inputs).log;
  }

  /** It makes the service be wanted. */
  predicate Wants(i: Input) {
    i.Start? || (i.Restart? && i.stops)
  }

  /** From a stop, or a restart that could not stop it, until the next start nothing is done about the service. */
  lemma {:induction false} StoppedStays(inputs: seq<Input>, i: Input, more: seq<Input>)
    requires i.Stop? || (i.Restart? && !i.stops)
    requires forall k :: 0 <= k < |more| ==> !Wants(more[k])
    ensures
      var s, t := RunOf(inputs + [i]), RunOf(inputs + [i] + more);
      && t.desired.Some? && t.desired.value.intent == Off
      && |s.log| <= |t.log| && forall k :: |s.log| <= k < |t.log| && t.log[k].Ticked? ==> t.log[k].act == Ignored
    decreases |more|
  {
    if |more| == 0 {
      assert inputs + [i] + more == inputs + [i];
      CommandsExactly(inputs, i);
    } else {
      var front, last := more[..|more|-1], more[|more|-1];
      assert inputs + [i] + more == inputs + [i] + front + [last];
      StoppedStays(inputs, i, front);
      OffStep(inputs + [i] + front, last);
    }
  }

  lemma {:induction false} OffStep(inputs: seq<Input>, i: Input)
    requires
      var s := RunOf(inputs);
      !Wants(i) && s.desired.Some? && s.desired.value.intent == Off
    ensures
      var s, t := RunOf(inputs), RunOf(inputs + [i]);
      && t.desired.Some? && t.desired.value.intent == Off
      && s.log <= t.log && forall k :: |s.log| <= k < |t.log| && t.log[k].Ticked? ==> t.log[k].act == Ignored
  {
    match i
    case Tock(e) => TicksAreLogged(inputs, e);
    case Die => RunSnoc(inputs, i);
    case _ => CommandsExactly(inputs, i);
  }
}
