/**
  A run from boot in which the clock driver blocks on its own mailbox: a sleeper that waited for
  room takes the slot between the driver's receive and its put-back, and nobody is woken again.
 */
module StuckDriver {
  import opened Wrappers
  import opened Mailboxes
  import opened SlotLedger
  import opened MailboxFifo
  import opened MailboxRuns
  import opened CarefulRuns
  import opened BadRuns
  import opened SleepQueue
  import opened SleepKernel
  import S = SleepRuns

  const FIRST: SleepReq := SleepReq(1, 5)
  const SECOND: SleepReq := SleepReq(2, 5)

  /** A clock mailbox of one slot. */
  function Clock(queue: seq<Message>, senders: seq<int>): Spot {
    Spot(Box(true, 1, REQ_SIZE, queue), None, senders, [])
  }

  function Asleep(queue: seq<Message>, senders: seq<int>, free: nat, procs: map<nat, Proc>): Scene {
    Scene(IDLE, IDLE, Clock(queue, senders), CLOSED, free, UNUSED, procs)
  }

  function WaitsForRoom(runnable: bool): map<nat, Proc> {
    map[2 := Proc(SendCall(6, Encode(SECOND)), runnable)]
  }

  function StuckScene(i: nat): Scene {
    match i
    case 0 => BOOTED
    case 1 => Asleep([], [], 2, map[])
    case 2 => Asleep([Encode(FIRST)], [], 1, map[])
    case 3 => Asleep([Encode(FIRST)], [2], 1, WaitsForRoom(false))
    case 4 => Asleep([], [], 2, WaitsForRoom(true))
    case _ => Asleep([Encode(SECOND)], [], 1, map[])
  }

  function StuckScript(i: nat): Action {
    match i
    case 0 => Start(Creating(1, REQ_SIZE))
    case 1 => S.StoreOf(6, 1, FIRST)
    case _ => S.StoreOf(6, 2, SECOND)  // waits for room
  }

  lemma StuckPlays()
    ensures Scripted(StuckScene, StuckScript, 0, 3) && StuckScene(0) == BOOTED
  {
    hide Plays, Shows, Encode;
    forall t: System, i: nat | i < 3 && Shows(t, StuckScene(i)) ensures Plays(t, StuckScript(i), StuckScene(i + 1)) {
      var c, d := StuckScene(i), StuckScene(i + 1);
      match i {
        case 0 => Opens(t, c, d, 1, REQ_SIZE);
        case 1 => Sends(t, c, d, 1, Encode(FIRST));
        case _ => Waits(t, c, d, 2, Encode(SECOND));
      }
    }
  }

  /** Tick 1: the driver takes the first request, the second sleeper gets the slot, the driver wants it back. */
  const MOVES: seq<S.Move> := [S.Begin, S.Receive, S.AskOn(2), S.Return]

  lemma ClockShown(c: S.Clock, i: nat)
    requires 3 <= i <= 5 && Shows(c.sys, StuckScene(i)) && (c.driver.Holding? ==> c.driver.req == FIRST)
    ensures S.Clocked(c, 6) && (BoxView(c.sys.kernel, 6) == StuckScene(i).six.box) && c.sys.procs == StuckScene(i).procs
    ensures |c.sys.kernel.free| == StuckScene(i).free
  {
    hide Balanced, Marked, BoxOk, Encode;
  }

  lemma BeginsTick(c: S.Clock)
    requires Shows(c.sys, StuckScene(3)) && c.driver == Waiting
    ensures S.Possible(c, 6, 3, S.Begin)
    ensures S.Then(c, 6, 3, S.Begin) == c.(tickCount := c.tickCount + 1, driver := Scanning)
  {}

  lemma TakesFirst(c: S.Clock)
    requires Shows(c.sys, StuckScene(3)) && c.driver == Scanning && c.tickCount == 1
    ensures S.Possible(c, 6, 3, S.Receive)
    ensures var t := S.Then(c, 6, 3, S.Receive);
      Shows(t.sys, StuckScene(4)) && t.driver == Holding(FIRST) && t.woken == c.woken && t.tickCount == 1
  {
    hide Balanced, Marked, BoxOk, Encode, Decode, Shows, After, CondRecv, BoxView;
    ClockShown(c, 3);
    Takes(c.sys, StuckScene(3), StuckScene(4), REQ_SIZE);
    TakesOldest(c.sys.kernel, 6);
    RoundTrip(FIRST);
  }

  lemma SecondStores(c: S.Clock)
    requires Shows(c.sys, StuckScene(4)) && c.driver == Holding(FIRST)
    ensures S.Possible(c, 6, 3, S.AskOn(2))
    ensures Shows(S.Then(c, 6, 3, S.AskOn(2)).sys, StuckScene(5))
      && S.Then(c, 6, 3, S.AskOn(2)) == c.(sys := After(c.sys, Resume(2)))
  {
    hide Balanced, Marked, BoxOk, Encode, Shows, After, BoxView;
    ClockShown(c, 4);
    StoresLater(c.sys, StuckScene(4), StuckScene(5), 2, Encode(SECOND));
  }

  lemma NoRoomForFirst(c: S.Clock)
    requires Shows(c.sys, StuckScene(5)) && c.driver == Holding(FIRST)
    ensures S.Possible(c, 6, 3, S.Return)
    ensures var t := S.Then(c, 6, 3, S.Return); S.Stuck(t, 6, 3) && t.woken == c.woken && t.driver == c.driver
  {
    hide Balanced, Marked, BoxOk, Encode, Shows, After, Messages;
    ClockShown(c, 5);
    S.PutBackExactly(c, 6, 3);
  }

  lemma GetsStuck(c: S.Clock)
    requires Shows(c.sys, StuckScene(3)) && c == S.Clock(c.sys, 0, [], Waiting)
    ensures S.IsRunOf(c, 6, 3, MOVES)
    ensures var t := S.Finally(c, 6, 3, MOVES); S.Stuck(t, 6, 3) && t.woken == [] && t.driver == Holding(FIRST)
  {
    hide Shows, S.Possible, S.Then, S.Stuck;
    var c1 := c.(tickCount := 1, driver := Scanning);
    BeginsTick(c);
    TakesFirst(c1);
    var c2 := S.Then(c1, 6, 3, S.Receive);
    SecondStores(c2);
    var c3 := S.Then(c2, 6, 3, S.AskOn(2));
    NoRoomForFirst(c3);
    assert MOVES[1..] == [S.Receive, S.AskOn(2), S.Return] && MOVES[1..][1..] == [S.AskOn(2), S.Return]
      && MOVES[1..][1..][1..] == [S.Return];
  }

  ghost predicate NobodyWoken(c: S.Clock, moves: seq<S.Move>) {
    S.IsRunOf(c, 6, 3, moves) ==> S.Finally(c, 6, 3, moves).woken == [] && S.Finally(c, 6, 3, moves).driver == c.driver
  }

  /**
    From boot: the driver holds the first request and is blocked behind the second one, and
    whatever happens from there on, neither sleeper is ever woken.
   */
  lemma ADriverBlocks() returns (actions: seq<Action>, c: S.Clock)
    ensures SystemOk(Booted(8, 2, 5)) && IsRun(Booted(8, 2, 5), actions) && NothingLost(Booted(8, 2, 5), actions)
    ensures var start := S.Clock(MailboxRuns.Run(Booted(8, 2, 5), actions), 0, [], Waiting);
      S.IsRunOf(start, 6, 3, MOVES) && c == S.Finally(start, 6, 3, MOVES)
    ensures S.Stuck(c, 6, 3) && c.driver == Holding(FIRST) && forall moves :: NobodyWoken(c, moves)
  {
    hide IsRun, MailboxRuns.Run, NothingLost, SystemOk, Shows, Booted, Part, Scripted, StuckScene, StuckScript,
      S.IsRunOf, S.Finally, S.Stuck;
    StuckPlays();
    actions := Play(StuckScene, StuckScript, 3);
    var start := S.Clock(MailboxRuns.Run(Booted(8, 2, 5), actions), 0, [], Waiting);
    GetsStuck(start);
    c := S.Finally(start, 6, 3, MOVES);
    forall moves ensures NobodyWoken(c, moves) {
      if S.IsRunOf(c, 6, 3, moves) { S.StuckForGood(c, 6, 3, moves); }
    }
  }
}
