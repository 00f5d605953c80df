/**
  A run from boot in which TermWrite's lock fails: the pool is empty, two writers get past
  the free lock, their characters mix on the screen, and the first one blocks in its unlock.
 */
module BypassedLock {
  import opened Wrappers
  import opened Mailboxes
  import opened SlotLedger
  import opened MailboxFifo
  import opened MailboxRuns
  import opened CarefulRuns
  import opened BadRuns
  import T = TerminalLock

  function Drained(seven: Spot, free: nat): Scene {
    Scene(IDLE, IDLE, Six(false, []), seven, free, UNUSED, map[])
  }

  function Seven(queue: seq<Message>): Spot {
    Spot(Box(true, 2, 0, queue), None, [], [])
  }

  function LockScene(i: nat): Scene {
    match i
    case 0 => BOOTED
    case 1 => Drained(CLOSED, 2)
    case 2 => Drained(Seven([]), 2)
    case 3 => Drained(Seven([[]]), 1)
    case _ => Drained(Seven([[], []]), 0)
  }

  function LockScript(i: nat): Action {
    match i
    case 0 => Start(Creating(1, 0))          // the lock, mailbox 6
    case 1 => Start(Creating(2, 0))
    case _ => Start(TrySending(7, Bytes([]), 0))  // takes the two slots of the pool
  }

  lemma LockPlays()
    ensures Scripted(LockScene, LockScript, 0, 4) && LockScene(0) == BOOTED
  {
    hide Plays, Shows;
    forall t: System, i: nat | i < 4 && Shows(t, LockScene(i)) ensures Plays(t, LockScript(i), LockScene(i + 1)) {
      var c, d := LockScene(i), LockScene(i + 1);
      match i {
        case 0 => Opens(t, c, d, 1, 0);
        case 1 => Opens(t, c, d, 2, 0);
        case 2 => Stores(t, c, d, 7, []);
        case _ => Stores(t, c, d, 7, []);
      }
    }
  }

  /** A send to the free lock returns without storing anything. */
  lemma PassesBy(s: System, pid: nat)
    requires Shows(s, LockScene(4))
    ensures SystemOk(s) && Enabled(s, T.LockSend(6, pid)) && EffectOf(s, T.LockSend(6, pid)).out == WouldBlock
    ensures SystemOk(After(s, T.LockSend(6, pid))) && Shows(After(s, T.LockSend(6, pid)), LockScene(4))
  {
    hide Balanced, Marked, BoxOk, Logged;
    ViewsOf(s, T.LockSend(6, pid));
  }

  lemma UnlockBlocks(s: System, pid: nat)
    requires Shows(s, LockScene(4))
    ensures SystemOk(s) && Enabled(s, T.LockRecv(6, pid)) && EffectOf(s, T.LockRecv(6, pid)).out.Blocked?
  {
    hide Balanced, Marked, BoxOk, Logged;
    ViewsOf(s, T.LockRecv(6, pid));
  }

  /** t' is reached from t by these events, each of them possible. */
  ghost predicate Leads(t: T.Terminal, events: seq<T.Event>, t': T.Terminal)
    decreases |events|
  {
    if events == [] then t == t'
    else SystemOk(t.sys) && T.Possible(t, 6, events[0]) && Leads(T.Then(t, 6, events[0]), events[1..], t')
  }

  lemma TwoHolders(t: T.Terminal) returns (t': T.Terminal)
    requires Shows(t.sys, LockScene(4)) && t.writers == map[] && t.screen == []
    ensures Leads(t, MIXED, t')
    ensures Shows(t'.sys, LockScene(4)) && t'.screen == [65, 97, 66]
    ensures t'.written == t.written && t'.writers == map[1 := T.Writing([65, 66], 2), 2 := T.Writing([97, 98], 1)]
  {
    hide Shows, Enabled, After, EffectOf, SystemOk, LockScene;
    PassesBy(t.sys, 1);
    var t1 := T.Then(t, 6, T.Write(1, [65, 66]));
    PassesBy(t1.sys, 2);
    var t2 := T.Then(t1, 6, T.Write(2, [97, 98]));
    var t3 := T.Then(t2, 6, T.Put(1));
    var t4 := T.Then(t3, 6, T.Put(2));
    t' := T.Then(t4, 6, T.Put(1));
  }

  /** A writer that is done, and whose unlock would block. */
  ghost predicate StuckInUnlock(t: T.Terminal, pid: nat) {
    SystemOk(t.sys) && T.Possible(t, 6, T.Unlock(pid)) && EffectOf(t.sys, T.LockRecv(6, pid)).out.Blocked?
  }

  lemma FirstIsStuck(t: T.Terminal)
    requires Shows(t.sys, LockScene(4)) && t.writers == map[1 := T.Writing([65, 66], 2), 2 := T.Writing([97, 98], 1)]
    ensures T.Holders(t) == {1, 2} && StuckInUnlock(t, 1)
  {
    hide Shows, SystemOk, Enabled, LockScene, EffectOf;
    UnlockBlocks(t.sys, 1);
  }

  const MIXED: seq<T.Event> := [T.Write(1, [65, 66]), T.Write(2, [97, 98]), T.Put(1), T.Put(2), T.Put(1)]

  /**
    From boot, with a pool of 2 slots: two writers hold the lock, the screen shows characters
    of both, and the first, having written its buffer, blocks in the unlock.
   */
  lemma ALockFails() returns (actions: seq<Action>, t: T.Terminal)
    ensures SystemOk(Booted(8, 2, 5)) && IsRun(Booted(8, 2, 5), actions)
    ensures Leads(T.Terminal(Run(Booted(8, 2, 5), actions), map[], [], []), MIXED, t)
    ensures T.Holders(t) == {1, 2} && t.screen == [65, 97, 66] && t.written == [] && StuckInUnlock(t, 1)
  {
    hide IsRun, Run, Shows, Booted, Part, Enabled, EffectOf, After, Scripted, LockScene, SystemOk, Leads,
      StuckInUnlock, NothingLost, LockScript;
    LockPlays();
    actions := Play(LockScene, LockScript, 4);
    t := TwoHolders(T.Terminal(Run(Booted(8, 2, 5), actions), map[], [], []));
    FirstIsStuck(t);
  }
}
