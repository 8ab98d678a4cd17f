/** RCON commands with retries, and the save-off / save-on bracket around one server's backup. */
module SaveBracket {

  const RCON_RETRIES := 5

  /** The context a command runs under: the cycle's, or one of its own that the cycle cannot cancel. */
  datatype Context = Caller | Detached

  datatype Command = SaveOff | SaveAllFlush | SaveOn

  datatype Step = Sync | CleanUp | NasReady | MakeDir | CopyData | RenameDir

  /** One attempt at something outside the program, and whether it worked. */
  datatype Event =
    | Rcon(command: Command, context: Context, ok: bool)
    | Did(step: Step, ok: bool)

  datatype Target = Local | Nas | TieredLocal | TieredNas | Unresolved

  datatype Result = Success | BadTarget | RconFailed(command: Command) | StepFailed(step: Step)

  // ---- The specification ---------------------------------------------------------------------------

  /** `failures` attempts that failed, then one that worked if `ok`. */
  function Attempts(command: Command, context: Context, failures: nat, ok: bool): seq<Event> {
    seq(failures, _ => Rcon(command, context, false)) + (if ok then [Rcon(command, context, true)] else [])
  }

  /** One command: some failed attempts, then perhaps a success, and not more attempts than allowed. */
  datatype Tries = Tries(failures: nat, ok: bool)

  predicate Allowed(t: Tries) {
    t.failures + (if t.ok then 1 else 0) <= RCON_RETRIES && (!t.ok ==> t.failures >= 1)
  }

  /** A failure of one of these is a failure of the backup; a failed sync or clean-up is not. */
  predicate Essential(step: Step) {
    step != Sync && step != CleanUp
  }

  /** The first essential step that failed decides the result. */
  function BodyResult(body: seq<Event>): (r: Result)
    ensures r == Success || r.StepFailed?
  {
    if body == [] then Success
    else
      var before, last := BodyResult(body[..|body| - 1]), body[|body| - 1];
      if before == Success && last.Did? && Essential(last.step) && !last.ok then StepFailed(last.step) else before
  }

  lemma BodyOneMore(body: seq<Event>, e: Event)
    ensures BodyResult(body + [e]) ==
            if BodyResult(body) == Success && e.Did? && Essential(e.step) && !e.ok then StepFailed(e.step)
            else BodyResult(body)
  {
    assert (body + [e])[..|body|] == body;
  }

  /** The steps of a backup that succeeds. */
  function Plan(target: Target): seq<Step> {
    match target
    case Nas => [Sync, NasReady, MakeDir, CopyData]
    case Local => [Sync, MakeDir, CopyData]
    case TieredLocal => [Sync, CleanUp, MakeDir, MakeDir, CopyData, RenameDir]
    case TieredNas => [Sync, CleanUp, MakeDir, MakeDir, CopyData, RenameDir]
    case Unresolved => []
  }

  predicate Follows(body: seq<Event>, plan: seq<Step>) {
    |body| <= |plan| && forall i | 0 <= i < |body| :: body[i] == Did(plan[i], body[i].ok)
  }

  predicate NoRcon(events: seq<Event>) {
    forall i | 0 <= i < |events| :: events[i].Did?
  }

  /** What one backup did: save-off, flush, the copying steps, save-on. */
  datatype Phases =
    | Offline(body: seq<Event>)
    | Refused(off: Tries)
    | Online(off: Tries, flush: Tries, body: seq<Event>, on: Tries)

  function Trace(p: Phases): seq<Event> {
    match p
    case Offline(body) => body
    case Refused(off) => Attempts(SaveOff, Caller, off.failures, off.ok)
    case Online(off, flush, body, on) =>
      Attempts(SaveOff, Caller, off.failures, off.ok) + Attempts(SaveAllFlush, Caller, flush.failures, flush.ok)
      + body + Attempts(SaveOn, Detached, on.failures, on.ok)
  }

  predicate Proper(p: Phases) {
    match p
    case Offline(body) => NoRcon(body)
    case Refused(off) => Allowed(off) && !off.ok
    case Online(off, flush, body, on) =>
      && Allowed(off) && off.ok && Allowed(flush) && Allowed(on)
      && NoRcon(body) && (!flush.ok ==> body == [])
  }

  function BodyOf(p: Phases): seq<Event> {
    if p.Refused? then [] else p.body
  }

  function ResultOf(p: Phases): Result {
    match p
    case Offline(body) => BodyResult(body)
    case Refused(off) => RconFailed(SaveOff)
    case Online(off, flush, body, on) =>
      if !flush.ok then RconFailed(SaveAllFlush)
      else if BodyResult(body) != Success then BodyResult(body)
      else if !on.ok then RconFailed(SaveOn)
      else Success
  }

  /** The attempts logged since are answered as the outside world answers them. */
  predicate Answered(before: seq<Event>, log: seq<Event>, works: nat -> bool) {
    |before| <= |log| && forall i | |before| <= i < |log| :: log[i].ok == works(i)
  }

  /** The outside world lets every attempt logged since work. */
  predicate AllWork(before: seq<Event>, log: seq<Event>, works: nat -> bool) {
    forall i | |before| <= i < |log| :: works(i)
  }

  // ---- The program ---------------------------------------------------------------------------------

  class Session {
    var log: seq<Event>
    /** What the outside world answers to the n-th attempt, and whether the context is done after it. */
    const works: nat -> bool
    const cancelled: nat -> bool

    constructor (works: nat -> bool, cancelled: nat -> bool)
      ensures log == []
    {
      this.works, this.cancelled := works, cancelled;
      log := [];
    }

    /** `body` is what has been done since the log was `start`, with the answers of the outside world. */
    ghost predicate Doing(start: seq<Event>, body: seq<Event>)
      reads this
    {
      log == start + body && NoRcon(body) && Answered(start, log, works)
    }

    /** Tries the next step of the plan. */
    method Attempt(step: Step, ghost start: seq<Event>, ghost body: seq<Event>, ghost plan: seq<Step>)
      returns (ok: bool, ghost more: seq<Event>)
      requires Doing(start, body) && BodyResult(body) == Success
      requires Follows(body, plan) && |body| < |plan| && plan[|body|] == step
      modifies this
      ensures Doing(start, more) && Follows(more, plan)
      ensures |more| == |body| + 1 && more[|body|] == Did(step, ok)
      ensures BodyResult(more) == if Essential(step) && !ok then StepFailed(step) else Success
    {
      hide BodyResult;
      ok := works(|log|);
      BodyOneMore(body, Did(step, ok));
      log := log + [Did(step, ok)];
      more := body + [Did(step, ok)];
    }

    method RunRcon(command: Command, context: Context, retries: nat) returns (ok: bool, ghost failures: nat)
      modifies this
      ensures log == old(log) + Attempts(command, context, failures, ok)
      ensures failures + (if ok then 1 else 0) <= retries
      ensures !ok && retries > 0 ==> failures >= 1
      ensures Answered(old(log), log, works)
      ensures !ok ==> failures == retries || cancelled(|log| - 1)
      ensures forall i | |old(log)| <= i < |log| - 1 :: !cancelled(i)
    {
      failures := 0;
      for i := 0 to retries
        invariant failures == i
        invariant log == old(log) + Attempts(command, context, failures, false)
        invariant Answered(old(log), log, works)
        invariant forall i | |old(log)| <= i < |log| :: !cancelled(i)
      {
        var n := |log|;
        ok := works(n);
        log := log + [Rcon(command, context, ok)];
        if ok {
          return;
        }
        failures := failures + 1;
        if cancelled(n) {
          return;
        }
      }
      ok := false;
    }

    /** The copying of a NAS or plain local backup. */
    method CopyDirect(target: Target, ghost start: seq<Event>) returns (r: Result, ghost body: seq<Event>)
      requires target == Nas || target == Local
      requires log == start
      modifies this
      ensures Doing(start, body) && r == BodyResult(body)
      ensures Follows(body, Plan(target)) && (r == Success ==> |body| == |Plan(target)|)
    {
      Starting(start, Plan(target));
      hide BodyResult, Doing, Follows;
      var ok;
      ok, body := Attempt(Sync, start, [], Plan(target));
      if target == Nas {
        ok, body := Attempt(NasReady, start, body, Plan(target));
        if !ok { return StepFailed(NasReady), body; }
      }
      ok, body := Attempt(MakeDir, start, body, Plan(target));
      if !ok { return StepFailed(MakeDir), body; }
      ok, body := Attempt(CopyData, start, body, Plan(target));
      if !ok { return StepFailed(CopyData), body; }
      return Success, body;
    }

    /** The private directory: a stale one removed, the parent and a new one made. */
    method PrepareHot(target: Target, ghost start: seq<Event>) returns (ok: bool, ghost body: seq<Event>)
      requires target == TieredLocal || target == TieredNas
      requires log == start
      modifies this
      ensures Doing(start, body) && Follows(body, Plan(target)) && (ok ==> |body| == 4)
      ensures BodyResult(body) == if ok then Success else StepFailed(MakeDir)
    {
      Starting(start, Plan(target));
      hide BodyResult, Doing, Follows;
      ok, body := Attempt(Sync, start, [], Plan(target));
      ok, body := Attempt(CleanUp, start, body, Plan(target));
      ok, body := Attempt(MakeDir, start, body, Plan(target));
      if !ok { return; }
      ok, body := Attempt(MakeDir, start, body, Plan(target));
    }

    /** The copying of a tiered backup's hot snapshot: failed copies and renames are cleaned up. */
    method CopyHot(target: Target, ghost start: seq<Event>) returns (r: Result, ghost body: seq<Event>)
      requires target == TieredLocal || target == TieredNas
      requires log == start
      modifies this
      ensures Doing(start, body) && r == BodyResult(body)
      ensures r == Success ==> Follows(body, Plan(target)) && |body| == |Plan(target)|
      ensures r == StepFailed(CopyData) || r == StepFailed(RenameDir) ==>
                |body| > 0 && body[|body| - 1] == Did(CleanUp, body[|body| - 1].ok)
    {
      hide BodyResult, Doing, Follows;
      var ok;
      ok, body := PrepareHot(target, start);
      if !ok { return StepFailed(MakeDir), body; }
      ok, body := Attempt(CopyData, start, body, Plan(target));
      if !ok {
        body := Clean(start, body);
        return StepFailed(CopyData), body;
      }
      ok, body := Attempt(RenameDir, start, body, Plan(target));
      if !ok {
        body := Clean(start, body);
        return StepFailed(RenameDir), body;
      }
      return Success, body;
    }

    lemma Starting(start: seq<Event>, plan: seq<Step>)
      requires log == start
      ensures Doing(start, []) && BodyResult([]) == Success && Follows([], plan)
    {
      assert start + [] == start;
    }

    /** Removes the directory being written after a failure; whether that works is ignored. */
    method Clean(ghost start: seq<Event>, ghost body: seq<Event>) returns (ghost more: seq<Event>)
      requires Doing(start, body)
      modifies this
      ensures Doing(start, more) && BodyResult(more) == BodyResult(body)
      ensures |more| == |body| + 1 && more[|body|] == Did(CleanUp, works(|old(log)|))
    {
      hide BodyResult;
      var ok := works(|log|);
      BodyOneMore(body, Did(CleanUp, ok));
      log := log + [Did(CleanUp, ok)];
      more := body + [Did(CleanUp, ok)];
    }

    method CopyTo(target: Target, ghost start: seq<Event>) returns (r: Result, ghost body: seq<Event>)
      requires target != Unresolved && log == start
      modifies this
      ensures log == start + body && NoRcon(body) && Answered(start, log, works) && r == BodyResult(body)
      ensures r == Success ==> Follows(body, Plan(target)) && |body| == |Plan(target)|
      ensures AllWork(start, log, works) ==> r == Success
    {
      hide BodyResult, Follows;
      if target == Nas || target == Local {
        r, body := CopyDirect(target, start);
      } else {
        r, body := CopyHot(target, start);
      }
      if AllWork(start, log, works) {
        WorkingSucceeds(start, body, works);
      }
    }

    /** The context was done after the last of n logged attempts. */
    predicate GaveUp(n: nat) {
      n > 0 && cancelled(n - 1)
    }

    /** With the server online: save-off, flush, the copying if both worked, and save-on in any case. */
    method BackupOnline(target: Target) returns (r: Result, ghost p: Phases)
      requires target != Unresolved
      modifies this
      ensures log == old(log) + Trace(p) && Proper(p) && !p.Offline? && r == ResultOf(p)
      ensures r == Success ==> Follows(BodyOf(p), Plan(target)) && |BodyOf(p)| == |Plan(target)|
      ensures Answered(old(log), log, works)
      ensures AllWork(old(log), log, works) ==> r == Success
      ensures p.Refused? ==> r == RconFailed(SaveOff) && (p.off.failures == 5 || GaveUp(|log|))
      ensures p.Online? && !p.flush.ok ==>
                && r == RconFailed(SaveAllFlush)
                && (p.flush.failures == 5 || GaveUp(|old(log)| + p.off.failures + 1 + p.flush.failures))
      ensures p.Online? && !p.on.ok ==> r != Success && (p.on.failures == 5 || GaveUp(|log|))
      ensures r == Success ==>
                StepsOf(BodyOf(p)) ==
                match target
                case Nas => [Sync, NasReady, MakeDir, CopyData]
                case Local => [Sync, MakeDir, CopyData]
                case _ => [Sync, CleanUp, MakeDir, MakeDir, CopyData, RenameDir]
    {
      hide BodyResult, Follows, Attempts, Answered, AllWork, StepsOf, Plan;
      ghost var failures;
      var ok;
      ok, failures := RunRcon(SaveOff, Caller, RCON_RETRIES);
      ghost var off, log1 := Tries(failures, ok), log;
      TriesShow(old(log), log1, SaveOff, Caller, off, works);
      if !ok {
        LogLengths(old(log), log1, SaveOff, Caller, off);
        return RconFailed(SaveOff), Refused(off);
      }
      ok, failures := RunRcon(SaveAllFlush, Caller, RCON_RETRIES);
      ghost var flush, log2, body := Tries(failures, ok), log, [];
      TriesShow(log1, log2, SaveAllFlush, Caller, flush, works);
      LogLengths(old(log), log1, SaveOff, Caller, off);
      LogLengths(log1, log2, SaveAllFlush, Caller, flush);
      NothingDone(log2, works);
      if !ok {
        r := RconFailed(SaveAllFlush);
      } else {
        r, body := CopyTo(target, log2);
        if r == Success {
          FollowedSteps(target, body);
        }
      }
      ghost var log3 := log;
      // deferred: runs whatever happened above
      ok, failures := RunRcon(SaveOn, Detached, RCON_RETRIES);
      ghost var on := Tries(failures, ok);
      TriesShow(log3, log, SaveOn, Detached, on, works);
      if !ok && r == Success {
        r := RconFailed(SaveOn);
      }
      Reassociate(old(log), Attempts(SaveOff, Caller, off.failures, off.ok),
                  Attempts(SaveAllFlush, Caller, flush.failures, flush.ok), body,
                  Attempts(SaveOn, Detached, on.failures, on.ok));
      AnsweredThroughout(old(log), log1, log2, works);
      AnsweredThroughout(old(log), log2, log3, works);
      AnsweredThroughout(old(log), log3, log, works);
      return r, Online(off, flush, body, on);
    }

    method BackupServer(target: Target, offline: bool) returns (r: Result, ghost p: Phases)
      modifies this
      ensures target == Unresolved ==> r == BadTarget && log == old(log)
      ensures target != Unresolved ==>
        log == old(log) + Trace(p) && Proper(p) && r == ResultOf(p) && p.Offline? == offline
      ensures r == Success ==> Follows(BodyOf(p), Plan(target)) && |BodyOf(p)| == |Plan(target)|
      ensures Answered(old(log), log, works)
      ensures target != Unresolved && AllWork(old(log), log, works) ==> r == Success
      ensures target != Unresolved && p.Refused? ==> r == RconFailed(SaveOff) && (p.off.failures == 5 || GaveUp(|log|))
      ensures target != Unresolved && p.Online? && !p.flush.ok ==>
                && r == RconFailed(SaveAllFlush)
                && (p.flush.failures == 5 || GaveUp(|old(log)| + p.off.failures + 1 + p.flush.failures))
      ensures target != Unresolved && p.Online? && !p.on.ok ==> r != Success && (p.on.failures == 5 || GaveUp(|log|))
      ensures r == Success ==>
                StepsOf(BodyOf(p)) ==
                match target
                case Nas => [Sync, NasReady, MakeDir, CopyData]
                case Local => [Sync, MakeDir, CopyData]
                case _ => [Sync, CleanUp, MakeDir, MakeDir, CopyData, RenameDir]
    {
      hide Follows, StepsOf, Plan;
      p := Offline([]);
      if target == Unresolved {
        return BadTarget, p;
      }
      if offline {
        ghost var body;
        r, body := CopyTo(target, log);
        if r == Success {
          FollowedSteps(target, body);
        }
        return r, Offline(body);
      }
      r, p := BackupOnline(target);
    }
  }

  function StepsOf(body: seq<Event>): seq<Step> {
    seq(|body|, i requires 0 <= i < |body| => if body[i].Did? then body[i].step else Sync)
  }

  lemma FollowedSteps(target: Target, body: seq<Event>)
    requires Follows(body, Plan(target)) && |body| == |Plan(target)|
    ensures StepsOf(body) == Plan(target)
    ensures target != Unresolved ==>
              StepsOf(body) ==
              match target
              case Nas => [Sync, NasReady, MakeDir, CopyData]
              case Local => [Sync, MakeDir, CopyData]
              case _ => [Sync, CleanUp, MakeDir, MakeDir, CopyData, RenameDir]
  {
  }

  lemma LogLengths(before: seq<Event>, log: seq<Event>, c: Command, x: Context, t: Tries)
    requires log == before + Attempts(c, x, t.failures, t.ok)
    ensures |log| == |before| + t.failures + if t.ok then 1 else 0
  {
  }

  lemma NothingDone(log: seq<Event>, works: nat -> bool)
    ensures log + [] == log && Answered(log, log, works) && NoRcon([]) && BodyResult([]) == Success
  {
  }

  /** What the log shows of one command: the tries and, if all attempts work, a success. */
  lemma TriesShow(before: seq<Event>, log: seq<Event>, c: Command, x: Context, t: Tries, works: nat -> bool)
    requires log == before + Attempts(c, x, t.failures, t.ok) && Answered(before, log, works)
    requires !t.ok ==> t.failures >= 1
    ensures AllWork(before, log, works) ==> t.ok
  {
    if !t.ok {
      assert log[|before|] == Rcon(c, x, false);
    }
  }

  lemma AnsweredThroughout(a: seq<Event>, b: seq<Event>, c: seq<Event>, works: nat -> bool)
    requires Answered(a, b, works) && Answered(b, c, works) && b <= c
    ensures Answered(a, c, works)
    ensures AllWork(a, c, works) ==> AllWork(a, b, works) && AllWork(b, c, works)
  {
  }

  lemma WorkingSucceeds(start: seq<Event>, body: seq<Event>, works: nat -> bool)
    requires NoRcon(body) && Answered(start, start + body, works) && AllWork(start, start + body, works)
    ensures BodyResult(body) == Success
  {
    forall i | 0 <= i < |body|
      ensures body[i].ok
    {
      assert (start + body)[|start| + i] == body[i];
    }
    AllOkSucceeds(body);
  }

  lemma {:induction false} AllOkSucceeds(body: seq<Event>)
    requires forall i | 0 <= i < |body| :: body[i].ok
    ensures BodyResult(body) == Success
  {
    if body != [] {
      AllOkSucceeds(body[..|body| - 1]);
    }
  }

  lemma Reassociate(a: seq<Event>, b: seq<Event>, c: seq<Event>, d: seq<Event>, e: seq<Event>)
    ensures a + (b + c + d + e) == a + b + c + d + e
    ensures d == [] ==> a + b + c + d == a + b + c
  {
  }

  // ---- What every run keeps ------------------------------------------------------------------------

  predicate IsCommand(e: Event, c: Command) {
    e.Rcon? && e.command == c
  }

  function CountCommand(events: seq<Event>, c: Command): nat {
    if events == [] then 0
    else (if IsCommand(events[0], c) then 1 else 0) + CountCommand(events[1..], c)
  }

  lemma {:induction false} CountAppend(a: seq<Event>, b: seq<Event>, c: Command)
    ensures CountCommand(a + b, c) == CountCommand(a, c) + CountCommand(b, c)
  {
    if a == [] {
      assert a + b == b;
    } else {
      CountAppend(a[1..], b, c);
      assert (a + b)[1..] == a[1..] + b;
    }
  }

  lemma {:induction false} CountSame(events: seq<Event>, d: Command, c: Command)
    requires forall i | 0 <= i < |events| :: IsCommand(events[i], d)
    ensures CountCommand(events, c) == if c == d then |events| else 0
  {
    if events != [] {
      CountSame(events[1..], d, c);
    }
  }

  lemma {:induction false} CountNone(events: seq<Event>, c: Command)
    requires NoRcon(events)
    ensures CountCommand(events, c) == 0
  {
    if events != [] {
      CountNone(events[1..], c);
    }
  }

  /** No RCON command is attempted more often than the retry limit allows. */
  lemma AttemptsAreBounded(p: Phases, c: Command)
    requires Proper(p)
    ensures CountCommand(Trace(p), c) <= RCON_RETRIES
  {
    match p
    case Offline(body) => CountNone(body, c);
    case Refused(off) => CountSame(Trace(p), SaveOff, c);
    case Online(off, flush, body, on) =>
      var x := Attempts(SaveOff, Caller, off.failures, off.ok);
      var y := Attempts(SaveAllFlush, Caller, flush.failures, flush.ok);
      var z := Attempts(SaveOn, Detached, on.failures, on.ok);
      CountSame(x, SaveOff, c);
      CountSame(y, SaveAllFlush, c);
      CountNone(body, c);
      CountSame(z, SaveOn, c);
      CountAppend(x, y, c);
      CountAppend(x + y, body, c);
      CountAppend(x + y + body, z, c);
  }

  /** The position of the last RCON attempt, or -1. */
  function LastRcon(events: seq<Event>): (i: int)
    ensures -1 <= i < |events|
    ensures i >= 0 ==> events[i].Rcon?
    ensures forall j | i < j < |events| :: events[j].Did?
  {
    if events == [] then -1
    else if events[|events| - 1].Rcon? then |events| - 1
    else LastRcon(events[..|events| - 1])
  }

  /** Once save-off has worked, the last RCON attempt of the run is save-on, under a context of its own. */
  lemma SaveOnComesLast(p: Phases)
    requires Proper(p) && Rcon(SaveOff, Caller, true) in Trace(p)
    ensures var t := Trace(p); var i := LastRcon(t);
            i >= 0 && t[i].command == SaveOn && t[i].context == Detached
    ensures ResultOf(p) == Success ==> Trace(p)[LastRcon(Trace(p))].ok
  {
    var t := Trace(p);
    match p
    case Offline(body) =>
      assert false;
    case Refused(off) =>
      assert false;
    case Online(off, flush, body, on) =>
      var z := Attempts(SaveOn, Detached, on.failures, on.ok);
      assert z != [] && t[|t| - 1] == z[|z| - 1];
  }

  /** The copying stands between the attempts of save-off and flush and those of save-on. */
  lemma BodyPosition(p: Phases, i: nat)
    requires Proper(p) && !p.Offline?
    requires i < |Trace(p)| && Trace(p)[i].Did?
    ensures p.Online? && p.off.ok && p.flush.ok
    ensures var n := |Attempts(SaveOff, Caller, p.off.failures, p.off.ok)|
                     + |Attempts(SaveAllFlush, Caller, p.flush.failures, p.flush.ok)|;
            n <= i < n + |p.body|
  {
  }

  /** Data is copied only after save-off and a flush have worked, and before save-on is first tried. */
  lemma CopyInsideBracket(p: Phases, i: nat)
    requires Proper(p) && !p.Offline?
    requires i < |Trace(p)| && Trace(p)[i].Did?
    ensures exists j :: 0 <= j < i && Trace(p)[j] == Rcon(SaveOff, Caller, true)
    ensures exists j :: 0 <= j < i && Trace(p)[j] == Rcon(SaveAllFlush, Caller, true)
    ensures forall j | 0 <= j <= i :: !IsCommand(Trace(p)[j], SaveOn)
  {
    BodyPosition(p, i);
    var t := Trace(p);
    var x := Attempts(SaveOff, Caller, p.off.failures, p.off.ok);
    var y := Attempts(SaveAllFlush, Caller, p.flush.failures, p.flush.ok);
    assert t[|x| - 1] == Rcon(SaveOff, Caller, true);
    assert t[|x| + |y| - 1] == Rcon(SaveAllFlush, Caller, true);
  }

  /** A failed step of the backup is what the caller sees, whether or not save-on fails too. */
  lemma SaveOnNeverMasks(p: Phases)
    requires Proper(p)
    ensures ResultOf(p) == RconFailed(SaveOn) ==>
      p.Online? && p.flush.ok && BodyResult(p.body) == Success
    ensures p.Online? && p.flush.ok && BodyResult(p.body) != Success ==> ResultOf(p) == BodyResult(p.body)
    ensures ResultOf(p) == Success ==>
      forall i | 0 <= i < |Trace(p)| && Trace(p)[i].Did? && Trace(p)[i].step != Sync && Trace(p)[i].step != CleanUp ::
        Trace(p)[i].ok
    ensures ResultOf(p).StepFailed? ==>
      exists i :: 0 <= i < |BodyOf(p)| && BodyOf(p)[i] == Did(ResultOf(p).step, false)
  {
    if BodyResult(BodyOf(p)).StepFailed? {
      FailureIsLogged(BodyOf(p));
    }
    if ResultOf(p) == Success {
      var t := Trace(p);
      EssentialsWorked(p.body);
      if p.Online? {
        var n := |Attempts(SaveOff, Caller, p.off.failures, p.off.ok)
                  + Attempts(SaveAllFlush, Caller, p.flush.failures, p.flush.ok)|;
        forall i | 0 <= i < |t| && t[i].Did? && Essential(t[i].step)
          ensures t[i].ok
        {
          assert n <= i < n + |p.body| && t[i] == p.body[i - n];
        }
      }
    }
  }

  lemma {:induction false} FailureIsLogged(body: seq<Event>)
    requires BodyResult(body).StepFailed?
    ensures exists i :: 0 <= i < |body| && body[i] == Did(BodyResult(body).step, false)
  {
    if body != [] {
      var n := |body| - 1;
      if BodyResult(body[..n]) != Success {
        FailureIsLogged(body[..n]);
        var i :| 0 <= i < n && body[..n][i] == Did(BodyResult(body).step, false);
        assert body[i] == body[..n][i];
      } else {
        assert body[n] == Did(BodyResult(body).step, false);
      }
    }
  }

  lemma {:induction false} EssentialsWorked(body: seq<Event>)
    requires NoRcon(body) && BodyResult(body) == Success
    ensures forall i | 0 <= i < |body| && Essential(body[i].step) :: body[i].ok
  {
    if body != [] {
      var n := |body| - 1;
      EssentialsWorked(body[..n]);
      assert forall i | 0 <= i < n :: body[i] == body[..n][i];
    }
  }
}
