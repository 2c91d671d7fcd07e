/** The wake-up path as interleaved steps: scheduling calls on any thread, the timer's background
    thread, the one-byte pipe, the input handler and the blocking wait of the main thread. Locks
    have explicit owners; the clock only moves forward. */
module WakeUp {
  import opened Options

  /** Nanoseconds on the one clock. */
  type Instant = int

  const MILLISECOND: Instant := 1_000_000
  const LONGEST_SLEEP: Instant := 2_000_000_000
  const GLOBAL_LOOP: int := 0

  datatype Thread = Main | Background | Worker(n: nat)

  datatype Lock = TableLock | TimerLock | PipeLock

  /** A scheduling call. `outer` calls keep the table locked throughout, as any thread may make
      them; the others are the main thread's and lock it piecewise. */
  datatype Call =
    | NoCall
    | Arriving(loop: int, when: Instant, outer: bool)
    | Inside(loop: int, when: Instant, outer: bool)
    | Adding(loop: int, when: Instant, outer: bool)
    | Added(loop: int, id: nat, outer: bool)
    | Reading(loop: int, id: nat, outer: bool)
    | Setting(next: Instant, outer: bool)
    | InTimer(next: Instant, outer: bool)
    | Leaving

  datatype Bg =
    | Unborn
    | Starting
    | Looping
    | Untimed(signalled: bool)
    | Timed(deadline: Instant, signalled: bool)
    | BackUntimed
    | BackTimed(timedOut: bool)
    | Firing
    | Writing
    | Returned

  /** Where the main thread is; at `Free` it runs user code and may be in a scheduling call. */
  datatype MainPc =
    | Free
    | Quieting | Draining | Deciding
    | Rearming(at: Instant) | RearmingIn(at: Instant)
    | Resetting | ResetReading | ResetSetting(next: Instant) | ResetIn(next: Instant)
    | WaitArriving(expiry: Instant, loop: int)
    | WaitHead(expiry: Instant, loop: int)
    | WaitReading(expiry: Instant, loop: int)
    | WaitReady(expiry: Instant, loop: int, until: Instant)
    | Sleeping(expiry: Instant, loop: int, until: Instant, signalled: bool)
    | Waking(expiry: Instant, loop: int)
    | Stopping | StoppingIn | Joining | Over

  datatype Entry = Entry(loop: int, when: Instant)

  /** The queued callbacks by id, and for each registered loop the loops of its tree. */
  datatype Queues = Queues(pending: map<nat, Entry>, nextId: nat, tree: map<int, set<int>>)

  /** The recursive mutex all registries share. */
  datatype Table = Table(owner: Option<Thread>, depth: nat)

  datatype Timer = Timer(owner: Option<Thread>, wakeAt: Option<Instant>, stopped: bool, bg: Bg)

  datatype Pipe = Pipe(owner: Option<Thread>, hot: bool, bytes: nat)

  datatype State = State(
    now: Instant,
    queues: Queues,
    table: Table,
    timer: Timer,
    pipe: Pipe,
    main: MainPc,
    exec: bool,                   // the handler is running callbacks and will reset the timer
    calls: map<Thread, Call>,     // the scheduling call each thread is in
    lastWait: Option<bool>)       // what the last wait returned

  function CallOf(s: State, t: Thread): Call {
    if t in s.calls then s.calls[t] else NoCall
  }

  /** The main thread is running user code, outside any scheduling call. */
  predicate Idle(s: State) {
    s.main.Free? && CallOf(s, Main).NoCall?
  }

  predicate Open(table: Table, t: Thread) {
    table.owner.None? || table.owner == Some(t)
  }

  function Locked(table: Table, t: Thread): Table {
    Table(Some(t), table.depth + 1)
  }

  function Unlocked(table: Table): Table {
    if table.depth <= 1 then Table(None, 0) else Table(table.owner, table.depth - 1)
  }

  function Enqueued(q: Queues, e: Entry): Queues {
    Queues(q.pending[q.nextId := e], q.nextId + 1, q.tree)
  }

  /** Signals the waiter on the table's condition variable; only the main thread ever waits there. */
  function SignalWaiter(main: MainPc): MainPc {
    match main
    case Sleeping(expiry, loop, until, _) => Sleeping(expiry, loop, until, true)
    case _ => main
  }

  /** Signals the timer thread's condition variable. */
  function SignalBg(bg: Bg): Bg {
    match bg
    case Untimed(_) => Untimed(true)
    case Timed(d, _) => Timed(d, true)
    case _ => bg
  }

  /** `Timer::set`, whose guard is released at the end: the thread is made on demand, the time
      replaced, a waiter signalled. */
  function SetTimer(timer: Timer, at: Instant): Timer {
    Timer(None, Some(at), timer.stopped, if timer.bg.Unborn? then Starting else SignalBg(timer.bg))
  }

  /** `set_fd`, whose guard is released at the end. */
  function SetFd(pipe: Pipe, ready: bool): Pipe {
    if ready == pipe.hot then Pipe(None, pipe.hot, pipe.bytes)
    else if ready then Pipe(None, true, pipe.bytes + 1)
    else Pipe(None, false, 0)
  }

  predicate InLoops(q: Queues, loops: set<int>, id: nat) {
    id in q.pending && q.pending[id].loop in loops
  }

  /** `next` is the earliest timestamp pending in these loops. */
  ghost predicate IsNext(q: Queues, loops: set<int>, next: Option<Instant>) {
    match next
    case None => forall id :: !InLoops(q, loops, id)
    case Some(t) =>
      && (exists id :: InLoops(q, loops, id) && q.pending[id].when == t)
      && (forall id :: InLoops(q, loops, id) ==> t <= q.pending[id].when)
  }

  ghost predicate DueIn(q: Queues, loops: set<int>, at: Instant) {
    exists id :: InLoops(q, loops, id) && q.pending[id].when <= at
  }

  /** The loop has never been used. */
  ghost predicate Unused(q: Queues, loop: int) {
    loop !in q.tree && forall id :: id in q.pending ==> q.pending[id].loop != loop
  }

  /** Creating, destroying or pruning loops: trees lose loops or gain unused ones. */
  ghost predicate Reshaped(q: Queues, tree: map<int, set<int>>) {
    && GLOBAL_LOOP in tree
    && forall k :: k in tree ==>
         && k in tree[k]
         && (k in q.tree || Unused(q, k))
         && forall l :: l in tree[k] ==> Unused(q, l) || (k in q.tree && l in q.tree[k])
  }

  // ----- A scheduling call -----

  datatype CallMove =
    | Begin(loop: int, when: Instant, outer: bool)
    | LookUp | LockToAdd | Add | LockToRead | Read(next: Instant) | LockTimer | Set | Leave

  ghost predicate CallEnabled(s: State, t: Thread, m: CallMove) {
    var c := CallOf(s, t);
    match m
    case Begin(_, _, outer) => c.NoCall? && !t.Background? && (if t.Main? then s.main.Free? else outer)
    case LookUp => c.Arriving? && Open(s.table, t)
    case LockToAdd => c.Inside? && Open(s.table, t)
    case Add => c.Adding?
    case LockToRead => c.Added? && Open(s.table, t)
    case Read(next) => c.Reading? && c.loop in s.queues.tree && IsNext(s.queues, s.queues.tree[c.loop], Some(next))
    case LockTimer => c.Setting? && s.timer.owner.None?
    case Set => c.InTimer?
    case Leave => c.Leaving?
  }

  /** Where a call goes next. */
  ghost function NextCall(s: State, t: Thread, m: CallMove): Call
    requires CallEnabled(s, t, m)
  {
    var c := CallOf(s, t);
    match m
    case Begin(loop, when, outer) => Arriving(loop, when, outer)
    case LookUp => if c.loop in s.queues.tree then Inside(c.loop, c.when, c.outer) else NoCall
    case LockToAdd => Adding(c.loop, c.when, c.outer)
    case Add => Added(c.loop, s.queues.nextId, c.outer)
    case LockToRead => Reading(c.loop, c.id, c.outer)
    case Read(next) => Setting(next, c.outer)
    case LockTimer => InTimer(c.next, c.outer)
    case Set => if c.outer then Leaving else NoCall
    case Leave => NoCall
  }

  /** What a call's step does to everything else. */
  ghost function CallWorks(s: State, t: Thread, m: CallMove): State
    requires CallEnabled(s, t, m)
  {
    var c := CallOf(s, t);
    match m
    case Begin(_, _, _) => s
    case LookUp => if c.loop in s.queues.tree && c.outer then s.(table := Locked(s.table, t)) else s
    case LockToAdd | LockToRead => s.(table := Locked(s.table, t))
    case Add =>
      s.(queues := Enqueued(s.queues, Entry(c.loop, c.when)), main := SignalWaiter(s.main), table := Unlocked(s.table))
    case Read(_) | Leave => s.(table := Unlocked(s.table))
    case LockTimer => s.(timer := s.timer.(owner := Some(t)))
    case Set => s.(timer := SetTimer(s.timer, c.next))
  }

  ghost function ApplyCall(s: State, t: Thread, m: CallMove): State
    requires CallEnabled(s, t, m)
  {
    CallWorks(s, t, m).(calls := s.calls[t := NextCall(s, t, m)])
  }

  // ----- The timer's background thread -----

  datatype BgMove = BgLock | BgDecide | BgWake | BgTimeout | BgRelock | BgLockPipe | BgWrite

  predicate BgEnabled(s: State, m: BgMove) {
    match m
    case BgLock => s.timer.bg.Starting? && s.timer.owner.None?
    case BgDecide => s.timer.bg.Looping?
    case BgWake => s.timer.bg.Untimed? || s.timer.bg.Timed?
    case BgTimeout => s.timer.bg.Timed? && s.timer.bg.deadline <= s.now
    case BgRelock => (s.timer.bg.BackUntimed? || s.timer.bg.BackTimed?) && s.timer.owner.None?
    case BgLockPipe => s.timer.bg.Firing? && s.pipe.owner.None?
    case BgWrite => s.timer.bg.Writing?
  }

  /** One turn of the service loop up to its next wait, return or callback. */
  function Decided(timer: Timer, now: Instant): Timer {
    if timer.stopped then timer.(owner := None, bg := Returned)
    else if timer.wakeAt.None? then timer.(owner := None, bg := Untimed(false))
    else if timer.wakeAt.value > now then timer.(owner := None, bg := Timed(timer.wakeAt.value, false))
    else timer.(wakeAt := None, bg := Firing)
  }

  /** Back from a wait, holding the lock again. */
  function Relocked(timer: Timer): Timer {
    if timer.bg.BackUntimed? then timer.(owner := Some(Background), bg := Looping)
    else if timer.stopped then timer.(bg := Returned)
    else if timer.bg == BackTimed(true) then timer.(owner := Some(Background), wakeAt := None, bg := Firing)
    else timer.(owner := Some(Background), bg := Looping)
  }

  function ApplyBg(s: State, m: BgMove): State {
    match m
    case BgLock => s.(timer := s.timer.(owner := Some(Background), bg := Looping))
    case BgDecide => s.(timer := Decided(s.timer, s.now))
    case BgWake => s.(timer := s.timer.(bg := if s.timer.bg.Untimed? then BackUntimed else BackTimed(false)))
    case BgTimeout => s.(timer := s.timer.(bg := BackTimed(true)))
    case BgRelock => s.(timer := Relocked(s.timer))
    case BgLockPipe => s.(pipe := s.pipe.(owner := Some(Background)), timer := s.timer.(bg := Writing))
    case BgWrite => s.(pipe := SetFd(s.pipe, true), timer := s.timer.(bg := Looping))
  }

  // ----- The input handler -----

  datatype HandlerMove =
    | Handle | LockPipe | Drain | Decide(top: bool) | FrameFails | LockToRearm | Rearm
    | EndCallbacks | LockToReset | ReadToReset(found: Option<Instant>) | LockTimerToReset | Reset

  ghost predicate HandlerEnabled(s: State, m: HandlerMove) {
    match m
    case Handle => Idle(s) && s.pipe.bytes > 0
    case LockPipe => s.main.Quieting? && s.pipe.owner.None?
    case Drain => s.main.Draining?
    case Decide(top) => s.main.Deciding? && (top ==> !s.exec)
    // R is asked for its frame number only outside the execution of callbacks.
    case FrameFails => s.main.Deciding? && !s.exec
    case LockToRearm => s.main.Rearming? && s.timer.owner.None?
    case Rearm => s.main.RearmingIn?
    case EndCallbacks => Idle(s) && s.exec
    case LockToReset => s.main.Resetting? && s.table.owner.None?
    case ReadToReset(found) =>
      s.main.ResetReading? && GLOBAL_LOOP in s.queues.tree && IsNext(s.queues, s.queues.tree[GLOBAL_LOOP], found)
    case LockTimerToReset => s.main.ResetSetting? && s.timer.owner.None?
    case Reset => s.main.ResetIn?
  }

  ghost function ApplyHandler(s: State, m: HandlerMove): State
    requires HandlerEnabled(s, m)
  {
    match m
    case Handle => s.(main := Quieting)
    case LockPipe => s.(pipe := s.pipe.(owner := Some(Main)), main := Draining)
    case Drain => s.(pipe := SetFd(s.pipe, false), main := Deciding)
    case Decide(top) => if top then s.(exec := true, main := Free) else s.(main := Rearming(s.now + MILLISECOND))
    case FrameFails => s.(main := Free)
    case LockToRearm => s.(timer := s.timer.(owner := Some(Main)), main := RearmingIn(s.main.at))
    case Rearm => s.(timer := SetTimer(s.timer, s.main.at), main := Free)
    case EndCallbacks => s.(main := Resetting)
    case LockToReset => s.(table := Locked(s.table, Main), main := ResetReading)
    case ReadToReset(found) =>
      if found.None? then s.(table := Unlocked(s.table), main := Free, exec := false)
      else s.(table := Unlocked(s.table), main := ResetSetting(found.value))
    case LockTimerToReset => s.(timer := s.timer.(owner := Some(Main)), main := ResetIn(s.main.next))
    case Reset => s.(timer := SetTimer(s.timer, s.main.next), main := Free, exec := false)
  }

  // ----- The main thread: loops, the blocking wait, the end of the process -----

  datatype MainMove =
    | TakeCallback(id: nat)
    | Reshape(tree: map<int, set<int>>)
    | BeginWait(expiry: Instant, over: int)
    | LockToWait | EnterWait | CheckWait(found: Option<Instant>, dueAt: Instant) | Sleep | Wake | SleepOver
    | Stop | LockToStop | RaiseStop | Join

  ghost predicate MainEnabled(s: State, m: MainMove) {
    match m
    case TakeCallback(id) => Idle(s) && s.table.owner.None? && id in s.queues.pending
    case Reshape(tree) => Idle(s) && s.table.owner.None? && Reshaped(s.queues, tree)
    case BeginWait(_, over) => Idle(s) && over in s.queues.tree
    case LockToWait => (s.main.WaitArriving? || s.main.Waking?) && s.table.owner.None?
    case EnterWait => s.main.WaitHead?
    case CheckWait(found, dueAt) =>
      && s.main.WaitReading? && dueAt >= s.now
      && s.main.loop in s.queues.tree && IsNext(s.queues, s.queues.tree[s.main.loop], found)
    case Sleep => s.main.WaitReady?
    case Wake => s.main.Sleeping?
    case SleepOver => s.main.Sleeping? && s.main.until <= s.now
    case Stop => Idle(s) && !s.exec && !s.timer.bg.Unborn?
    case LockToStop => s.main.Stopping? && s.timer.owner.None?
    case RaiseStop => s.main.StoppingIn?
    case Join => s.main.Joining? && s.timer.bg.Returned?
  }

  function Earlier(expiry: Instant, found: Option<Instant>): Instant {
    if found.Some? && found.value < expiry then found.value else expiry
  }

  ghost function ApplyMain(s: State, m: MainMove): State
    requires MainEnabled(s, m)
  {
    match m
    case TakeCallback(id) => s.(queues := s.queues.(pending := s.queues.pending - {id}))
    case Reshape(tree) => s.(queues := s.queues.(tree := tree))
    case BeginWait(expiry, over) => s.(main := WaitArriving(expiry, over))
    case LockToWait => s.(table := Locked(s.table, Main), main := WaitHead(s.main.expiry, s.main.loop))
    case EnterWait => s.(table := Locked(s.table, Main), main := WaitReading(s.main.expiry, s.main.loop))
    case CheckWait(found, dueAt) =>
      var end := Earlier(s.main.expiry, found);
      if end <= s.now then
        s.(now := dueAt, table := Unlocked(Unlocked(s.table)), main := Free,
           lastWait := Some(DueIn(s.queues, s.queues.tree[s.main.loop], dueAt)))
      else
        s.(table := Unlocked(s.table),
           main := WaitReady(s.main.expiry, s.main.loop,
             if end - s.now > LONGEST_SLEEP then s.now + LONGEST_SLEEP else end))
    case Sleep =>
      s.(table := Unlocked(s.table), main := Sleeping(s.main.expiry, s.main.loop, s.main.until, false))
    case Wake | SleepOver => s.(main := Waking(s.main.expiry, s.main.loop))
    case Stop => s.(main := Stopping)
    case LockToStop => s.(timer := s.timer.(owner := Some(Main)), main := StoppingIn)
    case RaiseStop => s.(timer := Timer(None, s.timer.wakeAt, true, SignalBg(s.timer.bg)), main := Joining)
    case Join => s.(main := Over)
  }

  // ----- Runs -----

  datatype Step =
    | Tick(to: Instant)
    | InCall(t: Thread, call: CallMove)
    | InTimerThread(bg: BgMove)
    | InHandler(handler: HandlerMove)
    | InMain(main: MainMove)

  ghost predicate Enabled(s: State, step: Step) {
    match step
    case Tick(to) => to >= s.now
    case InCall(t, m) => CallEnabled(s, t, m)
    case InTimerThread(m) => BgEnabled(s, m)
    case InHandler(m) => HandlerEnabled(s, m)
    case InMain(m) => MainEnabled(s, m)
  }

  ghost function Apply(s: State, step: Step): State
    requires Enabled(s, step)
  {
    match step
    case Tick(to) => s.(now := to)
    case InCall(t, m) => ApplyCall(s, t, m)
    case InTimerThread(m) => ApplyBg(s, m)
    case InHandler(m) => ApplyHandler(s, m)
    case InMain(m) => ApplyMain(s, m)
  }

  function Start(now: Instant): State {
    State(now, Queues(map[], 1, map[GLOBAL_LOOP := {GLOBAL_LOOP}]), Table(None, 0), Timer(None, None, false, Unborn),
          Pipe(None, false, 0), Free, false, map[], None)
  }

  /** A run: each step enabled where it is taken. */
  ghost predicate Possible(s: State, steps: seq<Step>)
    decreases |steps|
  {
    steps == [] || (Enabled(s, steps[0]) && Possible(Apply(s, steps[0]), steps[1..]))
  }

  ghost function After(s: State, steps: seq<Step>): State
    requires Possible(s, steps)
    decreases |steps|
  {
    if steps == [] then s else After(Apply(s, steps[0]), steps[1..])
  }
}
