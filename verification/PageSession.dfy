/** The page session of crates/crikey-app/src/plugin_page.rs: the driver that turns
    host commands into frame requests and publishes the frames that come back.

    The host, the clock and the plugin are the environment: the host may send any command
    at any time until it hangs up, and the plugin may answer anything. A run is cut after
    any number of rounds, so what holds when `Run` returns holds of every reachable state.
    Ghost fields record what happened.
 */
module PageSessions {
  import opened Integers
  import opened Text

  const MAX_PENDING_PAGE_EVENTS: nat := 256
  const MIN_PAGE_REDRAW_MS: nat := 16

  datatype InputKind = Opened | Closed | PointerMoved | Discrete(code: int)

  datatype Input = Input(kind: InputKind, payload: int)

  datatype Frame = Frame(generation: u64, close: bool, redrawAfterMs: u32, nodes: seq<int>)

  const DEFAULT_FRAME: Frame := Frame(0, false, 0, [])

  datatype Update = Update(frame: Frame, closed: bool)

  datatype Draw = Draw(generation: u64, width: u32, height: u32, events: seq<Input>)

  datatype Command = Typed(input: Input) | Resize(width: u32, height: u32) | Close

  datatype Deadlines = Deadlines(soft: nat, hard: nat)

  /** `redraw_delay`: how long to wait before a frame the page scheduled itself. */
  function RedrawDelay(redrawAfterMs: u32): (r: Option<nat>)
    ensures r.None? <==> redrawAfterMs == 0
    ensures r.Some? ==> r.value >= MIN_PAGE_REDRAW_MS && r.value >= redrawAfterMs
    ensures r.Some? ==> r.value == MIN_PAGE_REDRAW_MS || r.value == redrawAfterMs
  {
    if redrawAfterMs == 0 then None
    else Some(if redrawAfterMs < MIN_PAGE_REDRAW_MS then MIN_PAGE_REDRAW_MS else redrawAfterMs)
  }

  // ---------------------------------------------------------------- what may be left out

  predicate Motion(i: Input) {
    i.kind == PointerMoved
  }

  /** `kept` is `all` in order, less some motions each followed at once by a motion. */
  predicate Thinned(all: seq<Input>, kept: seq<Input>) {
    if all == [] then kept == []
    else
      || (kept != [] && kept[0] == all[0] && Thinned(all[1..], kept[1..]))
      || (|all| >= 2 && Motion(all[0]) && Motion(all[1]) && Thinned(all[1..], kept))
  }

  lemma {:induction false} ThinnedAppend(all: seq<Input>, kept: seq<Input>, x: Input)
    requires Thinned(all, kept)
    ensures Thinned(all + [x], kept + [x])
    decreases |all|
  {
    if all == [] {
      assert [x][1..] == [];
      assert [] + [x] == [x];
    } else {
      assert (all + [x])[1..] == all[1..] + [x];
      if kept != [] && kept[0] == all[0] && Thinned(all[1..], kept[1..]) {
        assert (kept + [x])[1..] == kept[1..] + [x];
        ThinnedAppend(all[1..], kept[1..], x);
      } else {
        ThinnedAppend(all[1..], kept, x);
      }
    }
  }

  /** A motion may take the place of the motion kept last. */
  lemma {:induction false} ThinnedReplace(all: seq<Input>, kept: seq<Input>, x: Input)
    requires Thinned(all, kept) && kept != [] && Motion(kept[|kept| - 1]) && Motion(x)
    ensures Thinned(all + [x], kept[..|kept| - 1] + [x])
    decreases |all|
  {
    var now := kept[..|kept| - 1] + [x];
    assert (all + [x])[1..] == all[1..] + [x];
    if kept[0] == all[0] && Thinned(all[1..], kept[1..]) {
      if |kept| == 1 {
        NothingLeft(all[1..]);
        assert all[1..] + [x] == [x] && now == [x] && [x][1..] == [];
        assert Thinned([x], [x]);
        assert (all + [x])[1] == x;
      } else {
        ThinnedReplace(all[1..], kept[1..], x);
        assert now[1..] == kept[1..][..|kept| - 2] + [x];
      }
    } else {
      ThinnedReplace(all[1..], kept, x);
    }
  }

  lemma {:induction false} NothingLeft(all: seq<Input>)
    requires Thinned(all, [])
    ensures all == []
  {
    if all != [] { NothingLeft(all[1..]); }
  }

  /** Nothing but motions is ever left out. */
  lemma {:induction false} ThinnedKeepsDiscrete(all: seq<Input>, kept: seq<Input>)
    requires Thinned(all, kept)
    ensures Discretes(all) == Discretes(kept)
  {
    if all != [] {
      if kept != [] && kept[0] == all[0] && Thinned(all[1..], kept[1..]) {
        ThinnedKeepsDiscrete(all[1..], kept[1..]);
      } else {
        ThinnedKeepsDiscrete(all[1..], kept);
      }
    }
  }

  function Discretes(s: seq<Input>): (r: seq<Input>) {
    if s == [] then [] else (if Motion(s[0]) then [] else [s[0]]) + Discretes(s[1..])
  }

  // ---------------------------------------------------------------- the channel

  /** The inputs among some commands, in order. */
  function TypedInputs(commands: seq<Command>): (r: seq<Input>) {
    if commands == [] then []
    else
      var last := commands[|commands| - 1];
      TypedInputs(commands[..|commands| - 1]) + if last.Typed? then [last.input] else []
  }

  /** What was sent before the host closed the page. */
  function UpToClose(commands: seq<Command>): (r: seq<Command>) {
    if commands == [] || commands[0] == Close then [] else [commands[0]] + UpToClose(commands[1..])
  }

  lemma {:induction false} UpToCloseIs(before: seq<Command>, after: seq<Command>)
    requires Close !in before && (after == [] || after[0] == Close)
    ensures UpToClose(before + after) == before
  {
    if before == [] {
      assert before + after == after;
    } else {
      assert (before + after)[1..] == before[1..] + after;
      UpToCloseIs(before[1..], after);
    }
  }

  /** Once a close was sent, nothing sent later counts. */
  lemma {:induction false} CloseSettles(commands: seq<Command>, more: seq<Command>)
    requires Close in commands
    ensures UpToClose(commands + more) == UpToClose(commands)
  {
    assert (commands + more)[0] == commands[0];
    if commands[0] != Close {
      assert (commands + more)[1..] == commands[1..] + more;
      CloseSettles(commands[1..], more);
    }
  }

  /** Everything received was applied, but for the input that was refused. */
  ghost predicate HeardAll(inputs: seq<Input>, refused: Option<Input>, received: seq<Command>, notified: bool) {
    inputs + (if refused.Some? then [refused.value] else [])
    == [OPENED_EVENT] + TypedInputs(received) + (if notified then [CLOSED_EVENT] else [])
  }

  lemma HeardMore(inputs: seq<Input>, received: seq<Command>, command: Command)
    requires HeardAll(inputs, None, received, false)
    ensures command.Typed? ==>
              && HeardAll(inputs + [command.input], None, received + [command], false)
              && HeardAll(inputs, Some(command.input), received + [command], false)
    ensures !command.Typed? ==> HeardAll(inputs, None, received + [command], false)
  {
    assert (received + [command])[..|received|] == received;
    assert inputs + [] == inputs && TypedInputs(received) + [] == TypedInputs(received);
  }

  lemma HeardClosing(inputs: seq<Input>, received: seq<Command>)
    requires HeardAll(inputs, None, received, false)
    ensures HeardAll(inputs + [CLOSED_EVENT], None, received, true)
  {
    assert inputs + [] == inputs;
  }

  /** Everything received but `command`, the last, was applied, and none of it was a close. */
  ghost predicate AllBut(inputs: seq<Input>, received: seq<Command>, command: Command) {
    && received != [] && received[|received| - 1] == command
    && HeardAll(inputs, None, received[..|received| - 1], false) && Close !in received[..|received| - 1]
  }

  lemma AllButNext(inputs: seq<Input>, received: seq<Command>, command: Command)
    requires HeardAll(inputs, None, received, false) && Close !in received
    ensures AllBut(inputs, received + [command], command)
  {
    assert (received + [command])[..|received|] == received;
  }

  /** The first close sent was taken, or the host hung up and all was taken. */
  ghost predicate ClosedAt(received: seq<Command>, queue: seq<Command>, hungUp: bool) {
    || (received != [] && received[|received| - 1] == Close && Close !in received[..|received| - 1])
    || (hungUp && queue == [] && Close !in received)
  }

  /** The host sends more unless it hung up, and a hang-up is for good. */
  ghost predicate Grown(queue: seq<Command>, hungUp: bool, queueNow: seq<Command>, hungUpNow: bool) {
    queue <= queueNow && (hungUp ==> hungUpNow && queueNow == queue)
  }

  lemma PrefixUnder(a: seq<Command>, b: seq<Command>, c: seq<Command>)
    requires b <= c
    ensures a + b <= a + c
  {
  }

  lemma PrefixChain(a: seq<Command>, b: seq<Command>, c: seq<Command>, d: seq<Command>)
    requires a <= b + c && c <= d
    ensures a <= b + d
  {
    PrefixUnder(b, c, d);
  }

  // ---------------------------------------------------------------- the record of a run

  /** One thing the driver did. `idle` is set on a request that only the page's own
      schedule caused, to the time since the last accepted frame. */
  datatype Entry =
    | Applied(input: Input)
    | Asked(draw: Draw, closing: bool, idle: Option<nat>)
    | Replied(answer: Option<Frame>, took: nat) // what the plugin said, and after how long
    | Answered(frame: Frame) // an answer published; it ends the page if it says so
    | Ended(frame: Frame) // the last frame published again as the page's end

  datatype Log = Start | Then(before: Log, entry: Entry)

  const OPENED_EVENT: Input := Input(Opened, 0)
  const CLOSED_EVENT: Input := Input(Closed, 0)

  /** `Opened`, every input applied, and the closing event once notified. */
  function Inputs(log: Log): (r: seq<Input>) {
    match log
    case Start => [OPENED_EVENT]
    case Then(before, Applied(input)) => Inputs(before) + [input]
    case Then(before, Asked(_, true, _)) => Inputs(before) + [CLOSED_EVENT]
    case Then(before, _) => Inputs(before)
  }

  function Delivered(log: Log): (r: seq<Input>) {
    match log
    case Start => []
    case Then(before, Asked(draw, _, _)) => Delivered(before) + draw.events
    case Then(before, _) => Delivered(before)
  }

  /** The generations of the requests, in order. */
  function Generations(log: Log): (r: seq<u64>) {
    match log
    case Start => []
    case Then(before, Asked(draw, _, _)) => Generations(before) + [draw.generation]
    case Then(before, _) => Generations(before)
  }

  function Asks(log: Log): (n: nat) {
    |Generations(log)|
  }

  /** The published updates, in order. */
  function Updates(log: Log): (r: seq<Update>) {
    match log
    case Start => []
    case Then(before, Answered(frame)) => Updates(before) + [Update(frame, frame.close)]
    case Then(before, Ended(frame)) => Updates(before) + [Update(frame, true)]
    case Then(before, _) => Updates(before)
  }

  function LastFrame(log: Log): (f: Frame) {
    match log
    case Start => DEFAULT_FRAME
    case Then(_, Answered(frame)) => frame
    case Then(_, Ended(frame)) => frame
    case Then(before, _) => LastFrame(before)
  }

  /** The last thing done was to publish a closed update. */
  predicate Over(log: Log) {
    log.Then? && (log.entry.Ended? || (log.entry.Answered? && log.entry.frame.close))
  }

  /** Closing notifications sent. */
  function Notified(log: Log): (n: nat) {
    match log
    case Start => 0
    case Then(before, Asked(_, true, _)) => Notified(before) + 1
    case Then(before, _) => Notified(before)
  }

  /** The request a reply answers. */
  predicate HasReply(log: Log) {
    log.Then? && log.entry.Replied? && log.before.Then? && log.before.entry.Asked?
  }

  predicate Stale(frame: Frame, draw: Draw) {
    frame.generation != 0 && frame.generation < draw.generation
  }

  /** The reply just received may be shown: it came in time and is not stale. */
  predicate Showable(hard: nat, log: Log)
    requires HasReply(log)
  {
    && !log.before.entry.closing && log.entry.answer.Some? && log.entry.took <= hard
    && !Stale(log.entry.answer.value, log.before.entry.draw)
  }

  /** The reply just received ends the page: the host had closed it, the plugin could not
      draw, or it took too long. */
  predicate EndsPage(hard: nat, log: Log)
    requires HasReply(log)
  {
    log.before.entry.closing || log.entry.answer.None? || log.entry.took > hard
  }

  /** Nothing is owed: no request awaits its reply, and the last reply was dealt with. */
  predicate Settled(hard: nat, log: Log) {
    log.Then? ==>
      && !log.entry.Asked?
      && (log.entry.Replied? ==> HasReply(log) && !Showable(hard, log) && !EndsPage(hard, log))
  }

  /** What the driver may do next: a request is followed by its reply, a reply that may be
      shown by showing it, a reply that ends the page by the end. */
  predicate Allowed(hard: nat, log: Log, e: Entry) {
    && !Over(log)
    && match e
       case Applied(_) => Settled(hard, log)
       case Asked(draw, _, idle) =>
         && Settled(hard, log)
         && draw.generation == Saturated(Asks(log) + 1)
         && (idle.Some? ==> idle.value >= MIN_PAGE_REDRAW_MS)
       case Replied(_, _) => log.Then? && log.entry.Asked?
       case Answered(frame) => HasReply(log) && Showable(hard, log) && frame == log.entry.answer.value
       case Ended(frame) => frame == LastFrame(log) && (Settled(hard, log) || (HasReply(log) && EndsPage(hard, log)))
  }

  predicate Sound(hard: nat, log: Log) {
    log.Then? ==> Sound(hard, log.before) && Allowed(hard, log.before, log.entry)
  }

  /** No shown answer carried a generation that had not been issued. */
  predicate Echoes(log: Log) {
    log.Then? ==>
      && Echoes(log.before)
      && (log.entry.Answered? && HasReply(log.before) ==>
            log.entry.frame.generation <= log.before.before.entry.draw.generation)
  }

  // ---------------------------------------------------------------- what every run promises

  /** A run that ends publishes exactly one closed update, its last, and a run that goes
      on has published none. Publishing it is the last thing done, so no request follows. */
  lemma {:induction false} EndsOnce(hard: nat, log: Log)
    requires Sound(hard, log)
    ensures forall i | 0 <= i < |Updates(log)| :: Updates(log)[i].closed <==> Over(log) && i == |Updates(log)| - 1
    ensures Over(log) ==> Updates(log) != []
  {
    if log.Then? { EndsOnce(hard, log.before); }
  }

  /** The last request was the closing notification. */
  predicate Closing(log: Log) {
    log.Then? && log.entry.Asked? && log.entry.closing
  }

  /** At most one closing notification is sent; only its reply and the published end
      follow it, so none is sent after a failure or after the plugin closed the page. */
  lemma {:induction false} NotifiesOnce(hard: nat, log: Log)
    requires Sound(hard, log)
    ensures Notified(log) <= 1
    ensures Notified(log) == 1 ==>
              || Closing(log)
              || (log.Then? && log.entry.Replied? && Closing(log.before))
              || (Over(log) && log.entry.Ended? && HasReply(log.before) && Closing(log.before.before))
  {
    if log.Then? { NotifiesOnce(hard, log.before); }
  }

  /** The n-th request carries generation n, saturating. */
  lemma {:induction false} RequestsNumbered(hard: nat, log: Log, n: nat)
    requires Sound(hard, log) && n < Asks(log)
    ensures Generations(log)[n] == Saturated(n + 1)
  {
    if log.entry.Asked? && n == Asks(log.before) {
    } else {
      RequestsNumbered(hard, log.before, n);
    }
  }

  /** The generations of the answers shown that did not close the page, in order. */
  function ShownGenerations(log: Log): (r: seq<u64>) {
    match log
    case Start => []
    case Then(before, Answered(frame)) =>
      if frame.close || frame.generation == 0 then ShownGenerations(before)
      else ShownGenerations(before) + [frame.generation]
    case Then(before, _) => ShownGenerations(before)
  }

  ghost predicate Rising(s: seq<u64>, limit: nat) {
    && (forall i | 0 <= i < |s| :: s[i] <= limit)
    && (forall i, j | 0 <= i < j < |s| :: s[i] < s[j])
  }

  /** When answers echo issued generations, those shown rise strictly. */
  lemma {:induction false} ShownGenerationsRise(hard: nat, log: Log)
    requires Sound(hard, log) && Echoes(log) && Asks(log) <= U64_MAX
    ensures Rising(ShownGenerations(log), Asks(log))
    ensures log.Then? && log.entry.Asked? ==> Rising(ShownGenerations(log), Asks(log) - 1)
    ensures HasReply(log) ==> Asks(log) >= 1 && Rising(ShownGenerations(log), Asks(log) - 1)
  {
    if log.Then? {
      ShownGenerationsRise(hard, log.before);
      if log.entry.Answered? {
        ShownGeneration(hard, log);
      }
    }
  }

  lemma ShownGeneration(hard: nat, log: Log)
    requires Sound(hard, log) && log.Then? && log.entry.Answered? && Echoes(log) && Asks(log) <= U64_MAX
    ensures log.entry.frame.generation == 0 || log.entry.frame.generation == Asks(log)
  {
    var ask := log.before.before;
    assert Sound(hard, log.before) && Sound(hard, ask);
    assert Asks(ask) == Asks(ask.before) + 1 && Asks(log.before) == Asks(ask);
  }

  /** An answer is shown only right after its request was answered in time with that very
      frame, by one no older than the request; and such an answer is always shown next. */
  lemma {:induction false} ShownExactlyWhenFit(hard: nat, log: Log, earlier: Log)
    requires Sound(hard, log) && Within(earlier, log) && HasReply(earlier) && earlier != log
    ensures exists next :: Within(next, log) && next.Then? && next.before == earlier
                           && (next.entry.Answered? <==> Showable(hard, earlier))
                           && (Showable(hard, earlier) ==> next.entry.frame == earlier.entry.answer.value)
                           && (EndsPage(hard, earlier) ==> next.entry.Ended?)
    decreases log
  {
    if log.before == earlier {
      assert Within(log, log);
    } else {
      ShownExactlyWhenFit(hard, log.before, earlier);
      var next :| Within(next, log.before) && next.Then? && next.before == earlier
                  && (next.entry.Answered? <==> Showable(hard, earlier))
                  && (Showable(hard, earlier) ==> next.entry.frame == earlier.entry.answer.value)
                  && (EndsPage(hard, earlier) ==> next.entry.Ended?);
      assert Within(next, log);
    }
  }

  /** No answer older than its request, and none past the hard deadline, is ever shown. */
  lemma {:induction false} NothingStaleShown(hard: nat, log: Log, earlier: Log)
    requires Sound(hard, log) && Within(earlier, log) && earlier.Then? && earlier.entry.Answered?
    ensures HasReply(earlier.before) && earlier.before.entry.answer == Some(earlier.entry.frame)
    ensures earlier.before.entry.took <= hard
    ensures var draw := earlier.before.before.entry.draw;
            earlier.entry.frame.generation == 0 || earlier.entry.frame.generation >= draw.generation
  {
    if earlier != log { NothingStaleShown(hard, log.before, earlier); }
  }

  /** `earlier` is how far the run had got at some point. */
  predicate Within(earlier: Log, log: Log) {
    earlier == log || (log.Then? && Within(earlier, log.before))
  }

  /** What a request and its reply add to the record. */
  lemma AskedAndReplied(hard: nat, log: Log, draw: Draw, closing: bool, idle: Option<nat>, answer: Option<Frame>,
                        took: nat)
    requires Sound(hard, log) && Allowed(hard, log, Asked(draw, closing, idle))
    ensures var now := Then(Then(log, Asked(draw, closing, idle)), Replied(answer, took));
            && Sound(hard, now) && HasReply(now) && !Over(now)
            && Inputs(now) == (if closing then Inputs(log) + [CLOSED_EVENT] else Inputs(log))
            && Delivered(now) == Delivered(log) + draw.events
            && Asks(now) == Asks(log) + 1 && Notified(now) == Notified(log) + (if closing then 1 else 0)
            && LastFrame(now) == LastFrame(log) && Updates(now) == Updates(log)
  {
    var mid := Then(log, Asked(draw, closing, idle));
    assert Sound(hard, mid) && !Over(mid);
    assert Inputs(mid) == if closing then Inputs(log) + [CLOSED_EVENT] else Inputs(log);
    assert Delivered(mid) == Delivered(log) + draw.events && Generations(mid) == Generations(log) + [draw.generation];
    assert Notified(mid) == Notified(log) + (if closing then 1 else 0);
    assert LastFrame(mid) == LastFrame(log) && Updates(mid) == Updates(log);
  }

  /** The next request in turn may be sent, however long the page has idled past the floor. */
  lemma AskedIsAllowed(hard: nat, log: Log, draw: Draw, idle: Option<nat>)
    requires Settled(hard, log) && !Over(log) && draw.generation == Saturated(Asks(log) + 1)
    requires idle.Some? ==> idle.value >= MIN_PAGE_REDRAW_MS
    ensures Allowed(hard, log, Asked(draw, false, idle))
  {
  }

  // ---------------------------------------------------------------- the mailbox

  /** Single slot, newest wins. */
  class PageMailbox {
    var update: Option<Update>
    var lastFrame: Frame

    constructor ()
      ensures update == None && lastFrame == DEFAULT_FRAME
    {
      update, lastFrame := None, DEFAULT_FRAME;
    }

    method Replace(frame: Frame, closed: bool)
      modifies this
      ensures update == Some(Update(frame, closed)) && lastFrame == frame
    {
      lastFrame := frame;
      update := Some(Update(frame, closed));
    }

    /** `PageSession::poll`: takes the newest update, once. */
    method Poll() returns (r: Option<Update>)
      modifies `update
      ensures r == old(update) && update == None
    {
      r, update := update, None;
    }
  }

  // ---------------------------------------------------------------- the driver

  /** A request that carries everything pending leaves nothing outstanding. */
  lemma NothingOutstanding(log: Log, pending: seq<Input>, draw: Draw, idle: Option<nat>, reply: Entry)
    requires Outstanding(log, pending) && draw.events == pending && reply.Replied?
    ensures Outstanding(Then(Then(log, Asked(draw, false, idle)), reply), [])
  {
    var mid := Then(log, Asked(draw, false, idle));
    assert Inputs(mid) == Inputs(log) && Delivered(mid) == Delivered(log) + pending;
    assert Delivered(mid) + [] == Delivered(log) + pending;
  }

  /** Everything applied is delivered or pending, and nothing is after the closing event. */
  ghost predicate Outstanding(log: Log, pending: seq<Input>) {
    && |pending| <= MAX_PENDING_PAGE_EVENTS
    && Thinned(Inputs(log), Delivered(log) + pending)
    && (Notified(log) > 0 ==> pending == [])
  }

  datatype Polled = Arrived(command: Command) | Empty | Disconnected

  datatype Drained = Open | CloseNow | Overrun

  datatype Waited = Woken(command: Command) | Woke | Gone

  /** How a round went: its drain was cut short, it ended the page without drawing, it
      asked for a frame, or it slept. */
  datatype Turn = Interrupted | Finished | Drew | Slept

  class PageDriver {
    const deadlines: Deadlines
    const mailbox: PageMailbox
    var width: u32
    var height: u32
    var generation: u64
    var pending: seq<Input>
    var lastFrame: Frame
    var redrawAt: Option<nat>
    var failure: Option<string>
    var softTimeouts: nat

    /** Milliseconds, as `Instant::now` reads them. */
    var clock: nat
    /** What the host has sent and the driver not yet taken. */
    var queue: seq<Command>
    var hungUp: bool
    /** What the driver has taken, in order. */
    ghost var received: seq<Command>

    ghost var log: Log
    /** The input that overran the queue and fails the page. */
    ghost var refused: Option<Input>
    ghost var acceptedAt: nat
    ghost var resized: bool

    /** Everything the host has sent. */
    ghost function Sent(): (r: seq<Command>)
      reads `received, `queue
    {
      received + queue
    }

    ghost predicate Heard()
      reads `log, `refused, `received
    {
      HeardAll(Inputs(log), refused, received, Notified(log) > 0)
    }

    /** Every command taken was dealt with, and none was a close. */
    ghost predicate Listening()
      reads `log, `refused, `received
    {
      Heard() && Close !in received
    }

    /** The page was closed by the first close sent, or by a hang-up once all was taken. */
    ghost predicate ClosedByHost()
      reads `received, `queue, `hungUp
    {
      ClosedAt(received, queue, hungUp)
    }

    /** There is something to ask for. */
    ghost predicate DueNow()
      reads `generation, `pending, `redrawAt, `clock
    {
      generation == 0 || pending != [] || (redrawAt.Some? && clock >= redrawAt.value)
    }

    /** Everything applied is delivered or pending, in order. */
    ghost predicate Delivering()
      reads `log, `pending
    {
      Outstanding(log, pending)
    }

    /** The fields say what the record says. */
    ghost predicate Recorded()
      reads `log, `generation, `lastFrame, mailbox`lastFrame
    {
      && Sound(deadlines.hard, log) && generation == Saturated(Asks(log))
      && lastFrame == LastFrame(log) == mailbox.lastFrame
    }

    /** What waits in the mailbox is the newest update. */
    ghost predicate Posted()
      reads `log, mailbox`update
    {
      mailbox.update.None? || (Updates(log) != [] && mailbox.update == Some(Updates(log)[|Updates(log)| - 1]))
    }

    /** A schedule the page set itself lies at least one floor after the frame that set it. */
    ghost predicate Paced()
      reads `redrawAt, `resized, `acceptedAt, `clock
    {
      acceptedAt <= clock && (redrawAt.Some? && !resized ==> redrawAt.value >= acceptedAt + MIN_PAGE_REDRAW_MS)
    }

    /** Ended by a failure: neither by the host nor by the plugin's own frame. */
    ghost predicate Failed()
      reads `log
    {
      Over(log) && log.entry.Ended? && Notified(log) == 0
    }

    ghost predicate Valid()
      reads this, mailbox
    {
      && Delivering() && Recorded() && Posted() && Paced()
      && (Asks(log) == 0 ==> pending != [])
      && (failure.Some? <==> Failed())
      && (refused.Some? ==> Failed() && |pending| == MAX_PENDING_PAGE_EVENTS)
      && (!Over(log) ==> Settled(deadlines.hard, log) && Notified(log) == 0)
      && Heard() && (!Over(log) ==> Close !in received) && (Notified(log) > 0 ==> ClosedByHost())
    }

    /** The page runs on and owes nothing; a refused input is about to fail it. */
    ghost predicate Alive()
      reads this, mailbox
    {
      Going() && Settled(deadlines.hard, log)
    }

    /** The page runs on, perhaps with a reply still to be dealt with. */
    ghost predicate Going()
      reads this, mailbox
    {
      Undone() && Posted() && Paced()
    }

    ghost predicate Undone()
      reads `log, `pending, `generation, `lastFrame, `failure, `refused, mailbox`lastFrame
    {
      && Delivering() && Recorded() && (Asks(log) == 0 ==> pending != [])
      && failure.None? && !Over(log) && Notified(log) == 0
      && (refused.Some? ==> |pending| == MAX_PENDING_PAGE_EVENTS)
    }

    constructor (width: u32, height: u32, deadlines: Deadlines, mailbox: PageMailbox, clock: nat)
      requires mailbox.update == None && mailbox.lastFrame == DEFAULT_FRAME
      ensures Alive() && Listening() && refused.None? && log == Start && this.mailbox == mailbox && Sent() == []
    {
      this.width, this.height, this.deadlines, this.mailbox, this.clock := width, height, deadlines, mailbox, clock;
      generation, pending, lastFrame, redrawAt := 0, [OPENED_EVENT], DEFAULT_FRAME, None;
      failure, softTimeouts := None, 0;
      queue, hungUp, received := [], false, [];
      log, refused, acceptedAt, resized := Start, None, clock, false;
      new;
      ThinnedAppend([], [], OPENED_EVENT);
      assert [] + [OPENED_EVENT] == [OPENED_EVENT];
      assert Delivered(log) + pending == [OPENED_EVENT];
    }

    // ---------------- the environment

    /** `PageSession::close`: reports the frame last drawn as the page's end at once, and
        settles what the plugin will be given. */
    method CloseSession() returns (r: Update)
      requires Recorded() && !hungUp
      modifies `queue
      ensures r == Update(LastFrame(log), true)
      ensures Sent() == old(Sent()) + [Close] && forall more :: UpToClose(Sent() + more) == UpToClose(old(Sent()))
    {
      queue := queue + [Close];
      r := Update(mailbox.lastFrame, true);
      assert Sent() == old(Sent()) + [Close];
      CloseAdds(old(Sent()));
      forall more ensures UpToClose(Sent() + more) == UpToClose(Sent()) { CloseSettles(Sent(), more); }
    }

    /** Time passes, and the host may send commands, hang up, and poll the mailbox. */
    method Meanwhile()
      modifies `clock, `queue, `hungUp, mailbox`update
      ensures clock >= old(clock) && Grown(old(queue), old(hungUp), queue, hungUp)
      ensures mailbox.update == None || mailbox.update == old(mailbox.update)
    {
      var passed: nat :| passed >= 0;
      clock := clock + passed;
      if * {
        var taken := mailbox.Poll();
      }
      if !hungUp {
        var more: seq<Command> := *;
        queue, hungUp := queue + more, *;
      }
    }

    /** `try_recv`. */
    method TryRecv() returns (p: Polled)
      modifies `clock, `queue, `hungUp, `received, mailbox`update
      ensures clock >= old(clock)
      ensures mailbox.update == None || mailbox.update == old(mailbox.update)
      ensures old(Sent()) <= Sent()
      ensures p.Arrived? ==> received == old(received) + [p.command]
      ensures !p.Arrived? ==> received == old(received) && queue == [] && (p == Disconnected <==> hungUp)
    {
      Meanwhile();
      PrefixUnder(received, old(queue), queue);
      if queue != [] {
        p := Arrived(queue[0]);
        assert received + queue == (received + [queue[0]]) + queue[1..];
        received, queue := received + [queue[0]], queue[1..];
      } else {
        p := if hungUp then Disconnected else Empty;
      }
    }

    /** The plugin answers a request with a frame or an error, in its own time. */
    method Ask(draw: Draw, closing: bool) returns (answer: Option<Frame>, elapsed: nat)
      modifies `clock, `queue, `hungUp, `log, mailbox`update
      ensures Grown(old(queue), old(hungUp), queue, hungUp)
      ensures log == Then(Then(old(log), Asked(draw, closing, IdleFor(old(clock), draw))), Replied(answer, elapsed))
      ensures clock >= old(clock)
      ensures mailbox.update == None || mailbox.update == old(mailbox.update)
    {
      log := Then(log, Asked(draw, closing, IdleFor(clock, draw)));
      var started := clock;
      Meanwhile();
      answer := *;
      elapsed := clock - started;
      log := Then(log, Replied(answer, elapsed));
    }

    ghost function IdleFor(now: nat, draw: Draw): (r: Option<nat>)
      reads `acceptedAt, `resized
    {
      if draw.events == [] && !resized && acceptedAt <= now then Some(now - acceptedAt) else None
    }

    // ---------------- the driver's own steps

    method Publish(frame: Frame, closed: bool, ghost entry: Entry)
      requires (entry == Answered(frame) && closed == frame.close) || (entry == Ended(frame) && closed)
      modifies `log, mailbox
      ensures log == Then(old(log), entry)
      ensures mailbox.update == Some(Update(frame, closed)) && mailbox.lastFrame == frame
    {
      mailbox.Replace(frame, closed);
      log := Then(log, entry);
    }

    /** One input: a motion replaces a motion still waiting, anything else queues. */
    method Take(input: Input) returns (r: Drained)
      requires Delivering() && Notified(log) == 0
      modifies `pending, `log, `refused
      ensures Delivering() && (pending == [] ==> old(pending) == []) && |pending| <= |old(pending)| + 1
      ensures r == Open || r == Overrun
      ensures r == Open ==> log == Then(old(log), Applied(input)) && refused == old(refused) && pending != []
      ensures r == Overrun ==>
                unchanged(`log, `pending) && refused == Some(input) && |pending| == MAX_PENDING_PAGE_EVENTS
    {
      ghost var before := Delivered(log);
      if Motion(input) && pending != [] && Motion(pending[|pending| - 1]) {
        Replaced(before, pending, input);
        ThinnedReplace(Inputs(log), before + pending, input);
        pending, log := pending[|pending| - 1 := input], Then(log, Applied(input));
        return Open;
      }
      if |pending| >= MAX_PENDING_PAGE_EVENTS {
        refused := Some(input);
        return Overrun;
      }
      ThinnedAppend(Inputs(log), before + pending, input);
      assert before + pending + [input] == before + (pending + [input]);
      pending, log := pending + [input], Then(log, Applied(input));
      r := Open;
    }

    method Reshape(w: u32, h: u32)
      requires Alive()
      modifies `width, `height, `redrawAt, `clock, `queue, `hungUp, `resized, mailbox`update
      ensures Grown(old(queue), old(hungUp), queue, hungUp) && clock >= old(clock)
      ensures Alive() && width == w && height == h && redrawAt == Some(clock)
    {
      Meanwhile();
      width, height, redrawAt, resized := w, h, Some(clock), true;
    }

    /** The command just received was the only one not dealt with. */
    ghost predicate Facing(command: Command)
      reads `log, `refused, `received
    {
      AllBut(Inputs(log), received, command)
    }

    method Apply(command: Command) returns (r: Drained)
      requires Alive() && refused.None? && Facing(command)
      modifies `pending, `width, `height, `redrawAt, `clock, `queue, `hungUp, `log, `refused, `resized, mailbox`update
      ensures (command == Close <==> r == CloseNow) && (r == Overrun ==> command.Typed?)
      ensures Alive() && refused == if r == Overrun then Some(command.input) else None
      ensures log == if command.Typed? && r == Open then Then(old(log), Applied(command.input)) else old(log)
      ensures command.Resize? ==> width == command.width && height == command.height && redrawAt == Some(clock)
      ensures !command.Resize? ==> unchanged(`width, `height, `redrawAt)
      ensures Heard() && (r != CloseNow ==> Listening()) && (r == Open ==> DueNow())
      ensures Grown(old(queue), old(hungUp), queue, hungUp) && clock >= old(clock)
      ensures |pending| <= |old(pending)| + 1 && Asks(log) == Asks(old(log))
    {
      ghost var earlier := received[..|received| - 1];
      HeardMore(Inputs(log), earlier, command);
      assert received == earlier + [command];
      match command {
        case Typed(input) =>
          r := Take(input);
        case Resize(w, h) =>
          Reshape(w, h);
          r := Open;
        case Close =>
          r := CloseNow;
      }
    }

    /** Takes the head of the queue, if there is one. */
    method Receive() returns (p: Polled)
      requires Alive()
      modifies `clock, `queue, `hungUp, `received, mailbox`update
      ensures Alive() && clock >= old(clock) && old(Sent()) <= Sent()
      ensures p.Arrived? ==> received == old(received) + [p.command]
      ensures !p.Arrived? ==> received == old(received) && queue == [] && (p == Disconnected <==> hungUp)
    {
      p := TryRecv();
    }

    method DrainCommand(command: Command, ghost sent: seq<Command>) returns (r: Drained)
      requires Alive() && refused.None? && Facing(command) && sent <= Sent()
      modifies `pending, `width, `height, `redrawAt, `clock, `queue, `hungUp, `log, `refused, `resized, mailbox`update
      ensures Alive() && (refused.Some? <==> r == Overrun) && Heard() && clock >= old(clock) && sent <= Sent()
      ensures if r == CloseNow then ClosedByHost() else Listening()
      ensures (r == Open ==> DueNow()) && Asks(log) == Asks(old(log))
    {
      r := Apply(command);
      PrefixChain(sent, received, old(queue), queue);
    }

    /** One turn of the drain loop. */
    method DrainOne() returns (r: Drained, more: bool)
      requires Alive() && refused.None? && Listening()
      modifies `pending, `width, `height, `redrawAt, `clock, `queue, `hungUp, `received, `log, `refused, `resized,
               mailbox`update
      ensures Alive() && (refused.Some? <==> r == Overrun) && Heard() && clock >= old(clock) && old(Sent()) <= Sent()
      ensures r != CloseNow ==> Listening()
      ensures r == CloseNow ==> ClosedByHost()
      ensures more ==> r == Open && DueNow() && |received| == |old(received)| + 1
      ensures !more && r == Open ==> Sent() == received && unchanged(`received, `pending, `redrawAt, `log)
      ensures Asks(log) == Asks(old(log))
    {
      var polled := Receive();
      match polled {
        case Arrived(command) =>
          AllButNext(Inputs(log), old(received), command);
          r := DrainCommand(command, old(Sent()));
          more := r == Open;
        case Empty =>
          r, more := Open, false;
        case Disconnected =>
          r, more := if pending == [] then CloseNow else Open, false;
      }
    }

    /** Folds in everything queued; `limit` cuts the run inside the loop. Unless cut or
        ended, everything sent before it is taken, and a drain that took anything is due. */
    method Drain(limit: nat) returns (r: Drained, cut: bool)
      requires Alive() && refused.None? && Listening()
      modifies `pending, `width, `height, `redrawAt, `clock, `queue, `hungUp, `received, `log, `refused, `resized,
               mailbox`update
      ensures Alive() && (refused.Some? <==> r == Overrun) && Heard() && clock >= old(clock)
      ensures r != CloseNow ==> Listening()
      ensures r == CloseNow ==> ClosedByHost()
      ensures cut ==> r == Open && |received| == |old(received)| + limit
      ensures r == Open && !cut ==> old(Sent()) <= received
      ensures Asks(log) == Asks(old(log))
      ensures r == Open && !cut ==> DueNow() || unchanged(`received, `pending, `redrawAt, `log)
    {
      r, cut := Open, false;
      var more, left := true, limit;
      while more && left > 0
        invariant Alive() && (refused.Some? <==> r == Overrun) && Heard() && clock >= old(clock)
        invariant (r != CloseNow ==> Listening()) && (r == CloseNow ==> ClosedByHost())
        invariant more ==> r == Open && |received| == |old(received)| + limit - left
        invariant old(Sent()) <= Sent() && Asks(log) == Asks(old(log))
        invariant !more && r == Open ==> Sent() == received
        invariant r == Open ==> DueNow() || unchanged(`received, `pending, `redrawAt, `log)
        decreases left
      {
        r, more := DrainOne();
        left := left - 1;
      }
      cut := more;
    }

    method Due() returns (r: bool)
      requires Alive()
      modifies `clock, `queue, `hungUp, mailbox`update
      ensures Alive() && clock >= old(clock) && (r <==> DueNow())
    {
      Meanwhile();
      r := generation == 0 || pending != [] || (redrawAt.Some? && clock >= redrawAt.value);
    }

    /** `recv`: blocks until the host sends or hangs up. */
    method Recv() returns (p: Polled)
      modifies `clock, `queue, `hungUp, `received, mailbox`update
      ensures clock >= old(clock) && p != Empty
      ensures mailbox.update == None || mailbox.update == old(mailbox.update)
      ensures p.Arrived? ==> received == old(received) + [p.command]
      ensures p == Disconnected ==> received == old(received) && queue == [] && hungUp
    {
      p := TryRecv();
      if p == Empty {
        var sent: seq<Command> := *;
        if sent == [] {
          hungUp, p := true, Disconnected;
        } else {
          received, queue, p := received + [sent[0]], sent[1..], Arrived(sent[0]);
        }
      }
    }

    /** The head of the queue, the page's own schedule, or a hang-up. */
    method Wait() returns (r: Waited)
      requires Alive()
      modifies `clock, `queue, `hungUp, `received, mailbox`update
      ensures Alive()
      ensures r.Woken? ==> received == old(received) + [r.command]
      ensures !r.Woken? ==> received == old(received)
      ensures r == Woke ==> redrawAt.Some?
      ensures r == Gone ==> hungUp && queue == []
    {
      var polled;
      if redrawAt.Some? { polled := TryRecv(); } else { polled := Recv(); }
      r := match polled case Arrived(command) => Woken(command) case Empty => Woke case Disconnected => Gone;
    }

    /** `notify_closed`: one last request carrying what is pending and the closing event. */
    method NotifyClosed()
      requires Alive() && Heard() && refused.None?
      modifies `generation, `pending, `log, `clock, `queue, `hungUp, mailbox`update
      ensures Grown(old(queue), old(hungUp), queue, hungUp) && Heard()
      ensures Delivering() && Recorded() && Posted() && Paced() && pending == []
      ensures HasReply(log) && log.before.before == old(log) && log.before.entry.closing
      ensures Notified(log) == 1 && !Over(log) && Inputs(log) == Inputs(old(log)) + [CLOSED_EVENT]
      ensures Asks(log) == Asks(old(log)) + 1
      ensures log.before.entry.draw == Draw(generation, width, height, old(pending) + [CLOSED_EVENT])
    {
      ghost var was := Delivered(log) + pending;
      ThinnedAppend(Inputs(log), was, CLOSED_EVENT);
      HeardClosing(Inputs(log), received);
      generation := Saturated(generation + 1);
      var events := pending + [CLOSED_EVENT];
      pending := [];
      var draw := Draw(generation, width, height, events);
      var answer, elapsed := Ask(draw, true);
      AskedAndReplied(deadlines.hard, old(log), draw, true, None, answer, elapsed);
      assert Delivered(old(log)) + events + [] == was + [CLOSED_EVENT];
    }

    /** The host closed the page: notify the plugin, then publish the close. */
    method CloseByHost()
      requires Alive() && refused.None? && Heard() && ClosedByHost()
      modifies this, mailbox
      ensures Valid() && Over(log) && Notified(log) == 1 && received == old(received)
      ensures Inputs(log) == Inputs(old(log)) + [CLOSED_EVENT] && Asks(log) == Asks(old(log)) + 1
    {
      NotifyClosed();
      Publish(lastFrame, true, Ended(lastFrame));
    }

    /** Ends the page as failed: the queue overran, or the last reply ends it. */
    method Fail(reason: string)
      requires Going() && Listening()
      requires (Settled(deadlines.hard, log) || (HasReply(log) && EndsPage(deadlines.hard, log)))
      modifies `failure, `log, mailbox
      ensures Valid() && Failed() && failure == Some(reason) && log == Then(old(log), Ended(lastFrame))
    {
      failure := Some(reason);
      Publish(lastFrame, true, Ended(lastFrame));
    }

    /** Sends the next request with everything pending. */
    method AskForFrame() returns (answer: Option<Frame>, elapsed: nat)
      requires Alive() && refused.None? && Listening() && DueNow()
      modifies `generation, `pending, `log, `clock, `queue, `hungUp, mailbox`update
      ensures Going() && Listening() && pending == [] && Asks(log) == Asks(old(log)) + 1
      ensures var draw := Draw(generation, width, height, old(pending));
              log == Then(Then(old(log), Asked(draw, false, IdleFor(old(clock), draw))), Replied(answer, elapsed))
    {
      ghost var draw := Draw(Saturated(generation + 1), width, height, pending);
      ghost var idle := IdleFor(clock, draw);
      AskedIsAllowed(deadlines.hard, log, draw, idle);
      answer, elapsed := SendRequest();
      NothingOutstanding(old(log), old(pending), draw, idle, Replied(answer, elapsed));
      AskedAndReplied(deadlines.hard, old(log), draw, false, idle, answer, elapsed);
    }

    method SendRequest() returns (answer: Option<Frame>, elapsed: nat)
      modifies `generation, `pending, `log, `clock, `queue, `hungUp, mailbox`update
      ensures generation == Saturated(old(generation) + 1) && pending == [] && clock >= old(clock)
      ensures var draw := Draw(generation, width, height, old(pending));
              log == Then(Then(old(log), Asked(draw, false, IdleFor(old(clock), draw))), Replied(answer, elapsed))
      ensures mailbox.update == None || mailbox.update == old(mailbox.update)
    {
      generation := Saturated(generation + 1);
      var draw := Draw(generation, width, height, pending);
      pending := [];
      answer, elapsed := Ask(draw, false);
    }

    /** When the page next redraws by itself. */
    method Schedule(frame: Frame)
      requires Paced()
      modifies `redrawAt, `clock, `queue, `hungUp, `acceptedAt, `resized, mailbox`update
      ensures Paced() && acceptedAt == clock
      ensures redrawAt.Some? <==> !frame.close && frame.redrawAfterMs != 0
      ensures mailbox.update == None || mailbox.update == old(mailbox.update)
    {
      Meanwhile();
      var delay := RedrawDelay(frame.redrawAfterMs);
      redrawAt := if frame.close || delay.None? then None else Some(clock + delay.value);
      acceptedAt, resized := clock, false;
    }

    /** Shows a frame that is not stale; a closing frame ends the page. */
    method Accept(frame: Frame)
      requires Going() && Listening() && refused.None? && HasReply(log) && Showable(deadlines.hard, log)
      requires log.entry.answer == Some(frame)
      modifies `redrawAt, `lastFrame, `log, `clock, `queue, `hungUp, `acceptedAt, `resized, mailbox
      ensures Valid() && log == Then(old(log), Answered(frame))
      ensures redrawAt.Some? <==> !frame.close && frame.redrawAfterMs != 0
    {
      Schedule(frame);
      lastFrame := frame;
      Publish(frame, frame.close, Answered(frame));
    }

    /** Asks for a frame and shows it, unless it is late, failed or stale. */
    method DrawFrame() returns (over: bool)
      requires Alive() && refused.None? && Listening() && DueNow()
      modifies this, mailbox
      ensures Valid() && (over <==> Over(log))
      ensures pending == [] && Asks(log) == Asks(old(log)) + 1 && Notified(log) == 0 && received == old(received)
    {
      var answer, elapsed := AskForFrame();
      if elapsed > deadlines.soft { softTimeouts := softTimeouts + 1; }
      if answer.None? { Fail("the plugin could not draw"); return true; }
      if elapsed > deadlines.hard { Fail("the plugin took too long"); return true; }
      var frame := answer.value;
      if frame.generation != 0 && frame.generation < generation { return false; }
      Accept(frame);
      over := frame.close;
    }

    /** Deals with the command that woke the driver: a lost one would be lost for good. */
    method Handle(command: Command) returns (over: bool)
      requires Alive() && refused.None? && Facing(command)
      modifies this, mailbox
      ensures Valid() && (over <==> Over(log)) && received == old(received)
      ensures over ==> Notified(log) == 1 || refused.Some?
      ensures Asks(log) == Asks(old(log)) + Notified(log) && (!over ==> |pending| <= |old(pending)| + 1)
    {
      var r := Apply(command);
      over := r != Open;
      match r {
        case Open =>
        case CloseNow => CloseByHost();
        case Overrun => Fail("too many unanswered input events");
      }
    }

    /** Sleeps until a command, the page's own schedule or the end of the channel. */
    method WaitForMore() returns (over: bool)
      requires Alive() && refused.None? && Listening()
      modifies this, mailbox
      ensures Valid() && (over <==> Over(log))
      ensures (over ==> Notified(log) == 1 || refused.Some?) && old(received) <= received
      ensures Asks(log) == Asks(old(log)) + Notified(log) && (!over ==> |received| <= |old(received)| + 1)
      ensures !over ==> |pending| <= |old(pending)| + 1
    {
      var waited := Wait();
      match waited {
        case Woken(command) =>
          AllButNext(Inputs(log), old(received), command);
          over := Handle(command);
        case Woke =>
          over := false;
        case Gone =>
          CloseByHost();
          over := true;
      }
    }

    /** One round of the loop: fold in what is queued, then wait or ask. A round that is
        due asks, and its request carries everything sent before the round began. */
    method Round(limit: nat) returns (over: bool, turn: Turn)
      requires Alive() && refused.None? && Listening() && limit > 0
      modifies this, mailbox
      ensures Valid() && (over <==> Over(log))
      ensures turn == Interrupted ==> |received| == |old(received)| + limit
      ensures turn == Finished ==> over && (Notified(log) == 1 || refused.Some?)
      ensures turn == Drew ==> pending == [] && old(Sent()) <= received
      ensures turn == Slept ==> old(!DueNow()) && old(Sent()) <= received && |received| <= |old(received)| + 1
      ensures turn == Slept || turn == Interrupted ==> !over
      ensures Asks(log) == Asks(old(log)) + Notified(log) + if turn == Drew then 1 else 0
    {
      var drained, cut := Drain(limit);
      if drained == CloseNow { CloseByHost(); return true, Finished; }
      if drained == Overrun { Fail("too many unanswered input events"); return true, Finished; }
      if cut { return false, Interrupted; }
      var due := Due();
      if due {
        over := DrawFrame();
        turn := Drew;
      } else {
        over := WaitForMore();
        turn := if over then Finished else Slept;
      }
    }

    /** Any number of rounds of any run: it stops early only once the page is over, and the
        requests sent are one for every round that drew and the closing one. */
    method Run(rounds: nat) returns (over: bool, turns: seq<Turn>)
      requires Alive() && refused.None? && Listening()
      modifies this, mailbox
      ensures Valid() && (over <==> Over(log))
      ensures |turns| <= rounds && (!over ==> |turns| == rounds)
      ensures Asks(log) == Asks(old(log)) + Draws(turns) + Notified(log)
    {
      over, turns := false, [];
      while |turns| < rounds && !over
        invariant Valid() && (over <==> Over(log)) && |turns| <= rounds
        invariant Asks(log) == Asks(old(log)) + Draws(turns) + Notified(log)
        decreases rounds - |turns|
      {
        var limit: nat :| limit > 0;
        var turn;
        over, turn := Round(limit);
        assert (turns + [turn])[..|turns|] == turns;
        turns := turns + [turn];
      }
    }
  }

  function Draws(turns: seq<Turn>): (n: nat) {
    if turns == [] then 0
    else Draws(turns[..|turns| - 1]) + if turns[|turns| - 1] == Drew then 1 else 0
  }

  lemma CloseAdds(commands: seq<Command>)
    ensures UpToClose(commands + [Close]) == UpToClose(commands)
  {
    if commands != [] { assert (commands + [Close])[1..] == commands[1..] + [Close]; }
  }

  lemma Replaced(before: seq<Input>, pending: seq<Input>, input: Input)
    requires pending != []
    ensures (before + pending)[..|before + pending| - 1] + [input] == before + pending[|pending| - 1 := input]
    ensures (before + pending)[|before + pending| - 1] == pending[|pending| - 1]
  {
  }

  /** A page the host closed delivered `Opened`, every input sent before the close, and
      the closing event, losing at most motions that another motion followed at once. */
  lemma HostCloseDeliversAll(d: PageDriver)
    requires d.Valid() && Notified(d.log) > 0
    ensures var all := [OPENED_EVENT] + TypedInputs(UpToClose(d.Sent())) + [CLOSED_EVENT];
            Thinned(all, Delivered(d.log)) && Discretes(Delivered(d.log)) == Discretes(all)
    ensures d.refused.None? && d.failure.None?
  {
    ClosedAfter(d);
    assert Delivered(d.log) + [] == Delivered(d.log) && Inputs(d.log) + [] == Inputs(d.log);
    ThinnedKeepsDiscrete(Inputs(d.log), Delivered(d.log));
  }

  lemma ClosedAfter(d: PageDriver)
    requires d.ClosedByHost()
    ensures TypedInputs(UpToClose(d.Sent())) == TypedInputs(d.received)
  {
    var n := |d.received|;
    if d.received != [] && d.received[n - 1] == Close {
      var before := d.received[..n - 1];
      assert d.Sent() == before + ([Close] + d.queue);
      UpToCloseIs(before, [Close] + d.queue);
      assert TypedInputs(d.received) == TypedInputs(before) + [];
    } else {
      UpToCloseIs(d.received, []);
    }
  }

  /** A page still open, with nothing left to take or to ask for, has delivered every
      input sent so far. */
  lemma NothingWithheld(d: PageDriver)
    requires d.Valid() && !Over(d.log) && d.pending == [] && d.queue == []
    ensures var all := [OPENED_EVENT] + TypedInputs(d.Sent());
            Thinned(all, Delivered(d.log)) && Discretes(Delivered(d.log)) == Discretes(all)
  {
    assert d.Sent() == d.received;
    var all := [OPENED_EVENT] + TypedInputs(d.Sent());
    assert Inputs(d.log) == all by {
      assert Inputs(d.log) + [] == Inputs(d.log) && all + [] == all;
    }
    assert Delivered(d.log) + [] == Delivered(d.log);
    ThinnedKeepsDiscrete(all, Delivered(d.log));
  }
}
