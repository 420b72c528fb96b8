/** The Java download: a network thread that asks for and stores segments, and a thread that writes them in order,
    joined by a semaphore. */
module JavaDownload {
  import opened Common

  type Blob = nat

  // Where the network thread stands inside nextDownloadInterest for a segment: the constructor names its next access.
  datatype Net = Listening | Put(segment: nat) | Release | AskNext

  // Where FileManager stands: the two reads of availablePermits, the acquisition, the calls of nextSegment, the write
  // and the test of isPending.
  datatype Writer = Look | LookAgain | Acquire(permits: nat) | Get | Remove(blob: Blob) | Write(blob: Blob) | Test | Stopped

  // segments: what the server holds. next, max, the pending map, file_pass, position and what was written; retries:
  // the segments with an Interest outstanding and the retries each has left. Auxiliary: `requested`, the segments in
  // the order they were first asked for.
  datatype State = State(
    next: nat,
    max: nat,
    pending: map<nat, Blob>,
    permits: nat,
    position: nat,
    out: seq<Blob>,
    retries: map<nat, nat>,
    net: Net,
    writer: Writer,
    aborted: bool,
    requested: seq<nat>)

  datatype Action = Deliver(segment: nat) | Timeout(segment: nat) | Network | Writing

  // A segment may be asked for two more times after a timeout.
  const RETRIES: nat := 2

  function Min(a: nat, b: nat): nat { if a < b then a else b }

  function Ask(s: State, segment: nat): State {
    s.(retries := s.retries[segment := RETRIES], requested := s.requested + [segment])
  }

  // The loop over the first window.
  function Opened(s: State, i: nat, limit: nat): State
    decreases limit - i
  {
    if i < limit then Opened(Ask(s, i), i + 1, limit) else s
  }

  // The answer that carries the number of segments; none are announced for a file that does not exist.
  function Begin(window: nat, announced: int): Option<State> {
    if announced <= 0 then None
    else
      Some(Opened(State(window, announced, map[], 0, 0, [], map[], Listening, Look, false, []), 0, Min(window, announced)))
  }

  predicate Enabled(s: State, a: Action) {
    && !s.aborted
    && match a
       case Deliver(i) => s.net.Listening? && i in s.retries
       case Timeout(i) => s.net.Listening? && i in s.retries
       case Network => !s.net.Listening?
       case Writing =>
         match s.writer
         case Acquire(k) => k <= s.permits
         case Stopped => false
         case _ => true
  }

  function NetworkStep(segments: seq<Blob>, s: State): State
    requires s.net.Put? ==> s.net.segment < |segments|
  {
    match s.net
    case Listening => s
    case Put(i) => s.(pending := s.pending[i := segments[i]], net := Release)
    case Release => s.(permits := s.permits + 1, net := AskNext)
    case AskNext =>
      var s' := s.(next := s.next + 1, net := Listening);
      if s.next + 1 <= s.max then Ask(s', s.next) else s'
  }

  function WriterStep(s: State): State
    requires s.writer.Acquire? ==> s.writer.permits <= s.permits
    requires s.writer.Remove? ==> s.position in s.pending
  {
    match s.writer
    case Look => s.(writer := if 0 < s.permits then LookAgain else Acquire(1))
    case LookAgain => s.(writer := Acquire(s.permits))
    case Acquire(k) => s.(permits := s.permits - k, writer := Get)
    case Get => s.(writer := if s.position in s.pending then Remove(s.pending[s.position]) else Test)
    case Remove(blob) =>
      s.(writer := Write(s.pending[s.position]), pending := s.pending - {s.position}, position := s.position + 1)
    case Write(blob) => s.(out := s.out + [blob], writer := Get)
    case Test => s.(writer := if s.position < s.max then Look else Stopped)
    case Stopped => s
  }

  predicate Defined(segments: seq<Blob>, s: State) {
    && (s.net.Put? ==> s.net.segment < |segments|)
    && (s.writer.Remove? ==> s.position in s.pending)
  }

  function Step(segments: seq<Blob>, s: State, a: Action): State
    requires Defined(segments, s) && Enabled(s, a)
  {
    match a
    case Deliver(i) => s.(retries := s.retries - {i}, net := Put(i))
    case Timeout(i) =>
      if 0 < s.retries[i] then s.(retries := s.retries[i := s.retries[i] - 1]) else s.(aborted := true)
    case Network => NetworkStep(segments, s)
    case Writing => WriterStep(s)
  }

  // ---- The invariant ----

  // How many segments have been asked for.
  function Asked(s: State): nat { Min(s.next, s.max) }

  // A segment that was received and not put into the map yet.
  predicate InHand(s: State, i: nat) { s.net == Put(i) }

  // Each segment asked for is outstanding, in the hands of the network thread, in the map, or taken by the writer.
  ghost predicate Partition(s: State) {
    && s.position <= Asked(s)
    && (forall i :: i in s.retries ==> i < Asked(s) && i !in s.pending && s.position <= i && !InHand(s, i))
    && (forall i :: i in s.pending ==> s.position <= i < Asked(s) && !InHand(s, i))
    && (s.net.Put? ==> s.position <= s.net.segment < Asked(s))
    && (forall i: nat :: s.position <= i < Asked(s) ==> i in s.retries || i in s.pending || InHand(s, i))
  }

  ghost predicate ContentsOk(segments: seq<Blob>, s: State) {
    && |segments| == s.max
    && (forall i :: i in s.pending ==> i < s.max && s.pending[i] == segments[i])
    && (s.writer.Remove? ==> s.position in s.pending)
    && s.position <= s.max
    && if s.writer.Write? then 0 < s.position && s.out == segments[..s.position - 1]
                               && s.writer.blob == segments[s.position - 1]
       else s.out == segments[..s.position]
  }

  ghost predicate AskedOnce(s: State) {
    |s.requested| == Asked(s) && forall i :: 0 <= i < |s.requested| ==> s.requested[i] == i
  }

  // A segment the writer could write is never left without a permit that will wake it.
  ghost predicate WakeOk(s: State) {
    && (s.writer.Look? || s.writer.LookAgain? || s.writer.Acquire? || s.writer.Test? ==>
          s.position in s.pending ==> 0 < s.permits || s.net.Release?)
    && (s.writer.Look? || s.writer.LookAgain? || s.writer.Acquire? ==> s.position < s.max)
    && (s.writer.LookAgain? ==> 0 < s.permits)
    && (s.writer.Acquire? ==> 1 <= s.writer.permits && (s.writer.permits == 1 || s.writer.permits <= s.permits))
    && (s.writer.Stopped? ==> s.position == s.max)
  }

  ghost predicate Inv(segments: seq<Blob>, s: State) {
    && Partition(s) && ContentsOk(segments, s) && AskedOnce(s) && WakeOk(s)
    && (s.net.Listening? && s.retries == map[] ==> s.max <= s.next)
  }

  lemma InvDefines(segments: seq<Blob>, s: State)
    requires Inv(segments, s)
    ensures Defined(segments, s)
  {}

  lemma DeliverKeepsInv(segments: seq<Blob>, s: State, i: nat)
    requires Inv(segments, s) && Enabled(s, Deliver(i))
    ensures Defined(segments, s) && Inv(segments, Step(segments, s, Deliver(i)))
  {}

  lemma TimeoutKeepsInv(segments: seq<Blob>, s: State, i: nat)
    requires Inv(segments, s) && Enabled(s, Timeout(i))
    ensures Defined(segments, s) && Inv(segments, Step(segments, s, Timeout(i)))
  {
    var s' := Step(segments, s, Timeout(i));
    assert i in s'.retries;
  }

  lemma NetworkKeepsPartition(segments: seq<Blob>, s: State)
    requires Partition(s) && ContentsOk(segments, s) && AskedOnce(s) && Enabled(s, Network)
    ensures Defined(segments, s) && Partition(NetworkStep(segments, s)) && AskedOnce(NetworkStep(segments, s))
    ensures var s' := NetworkStep(segments, s);
      s'.net.Listening? && s'.retries == map[] ==> s'.max <= s'.next
  {
    if s.net.AskNext? && s.next + 1 <= s.max {
      assert s.next in NetworkStep(segments, s).retries;
    }
  }

  lemma NetworkKeepsContents(segments: seq<Blob>, s: State)
    requires Partition(s) && ContentsOk(segments, s) && WakeOk(s) && Enabled(s, Network)
    ensures Defined(segments, s) && ContentsOk(segments, NetworkStep(segments, s)) && WakeOk(NetworkStep(segments, s))
  {}

  lemma NetworkKeepsInv(segments: seq<Blob>, s: State)
    requires Inv(segments, s) && Enabled(s, Network)
    ensures Defined(segments, s) && Inv(segments, Step(segments, s, Network))
  {
    hide Partition, ContentsOk, WakeOk, AskedOnce;
    NetworkKeepsPartition(segments, s);
    NetworkKeepsContents(segments, s);
  }

  lemma WriterKeepsPartition(segments: seq<Blob>, s: State)
    requires Partition(s) && ContentsOk(segments, s) && Enabled(s, Writing)
    ensures Partition(WriterStep(s)) && Asked(WriterStep(s)) == Asked(s)
  {
    if s.writer.Remove? {
      assert s.position in s.pending;
    }
  }

  lemma WriterKeepsContents(segments: seq<Blob>, s: State)
    requires Partition(s) && ContentsOk(segments, s) && Enabled(s, Writing)
    ensures ContentsOk(segments, WriterStep(s))
  {
    if s.writer.Remove? {
      assert s.position in s.pending;
    } else if s.writer.Write? {
      assert segments[..s.position] == segments[..s.position - 1] + [segments[s.position - 1]];
    }
  }

  lemma WriterKeepsWake(segments: seq<Blob>, s: State)
    requires Partition(s) && ContentsOk(segments, s) && WakeOk(s) && Enabled(s, Writing)
    ensures WakeOk(WriterStep(s))
  {
    hide Partition;
  }

  lemma WriterKeepsInv(segments: seq<Blob>, s: State)
    requires Inv(segments, s) && Enabled(s, Writing)
    ensures Defined(segments, s) && Inv(segments, Step(segments, s, Writing))
  {
    InvDefines(segments, s);
    hide Partition, ContentsOk, WakeOk;
    WriterKeepsPartition(segments, s);
    WriterKeepsContents(segments, s);
    WriterKeepsWake(segments, s);
  }

  lemma StepKeepsInv(segments: seq<Blob>, s: State, a: Action)
    requires Inv(segments, s) && Enabled(s, a)
    ensures Defined(segments, s) && Inv(segments, Step(segments, s, a))
  {
    hide Inv;
    match a
    case Deliver(i) => DeliverKeepsInv(segments, s, i);
    case Timeout(i) => TimeoutKeepsInv(segments, s, i);
    case Network => NetworkKeepsInv(segments, s);
    case Writing => WriterKeepsInv(segments, s);
  }

  lemma {:induction false} OpenedInv(s: State, i: nat, limit: nat)
    requires i <= limit && |s.requested| == i && forall j :: 0 <= j < i ==> s.requested[j] == j
    requires forall j: nat :: j in s.retries <==> j < i
    ensures var s' := Opened(s, i, limit);
      && s' == s.(retries := s'.retries, requested := s'.requested)
      && |s'.requested| == limit && (forall j :: 0 <= j < limit ==> s'.requested[j] == j)
      && (forall j: nat :: j in s'.retries <==> j < limit)
    decreases limit - i
  {
    if i < limit {
      OpenedInv(Ask(s, i), i + 1, limit);
    }
  }

  lemma BeginInv(segments: seq<Blob>, window: nat)
    requires 1 <= window && 0 < |segments|
    ensures Begin(window, |segments|).Some? && Inv(segments, Begin(window, |segments|).value)
  {
    var s0 := State(window, |segments|, map[], 0, 0, [], map[], Listening, Look, false, []);
    OpenedInv(s0, 0, Min(window, |segments|));
    var s := Begin(window, |segments|).value;
    assert 0 in s.retries;
  }

  function Run(segments: seq<Blob>, s: State, schedule: seq<Action>): State
    decreases |schedule|
  {
    if |schedule| == 0 then s
    else Run(segments, if Defined(segments, s) && Enabled(s, schedule[0]) then Step(segments, s, schedule[0]) else s,
             schedule[1..])
  }

  lemma {:induction false} RunKeepsInv(segments: seq<Blob>, s: State, schedule: seq<Action>)
    requires Inv(segments, s)
    ensures Inv(segments, Run(segments, s, schedule))
    decreases |schedule|
  {
    hide Inv;
    if |schedule| > 0 {
      InvDefines(segments, s);
      if Enabled(s, schedule[0]) {
        StepKeepsInv(segments, s, schedule[0]);
        RunKeepsInv(segments, Step(segments, s, schedule[0]), schedule[1..]);
      } else {
        RunKeepsInv(segments, s, schedule[1..]);
      }
    }
  }

  /** Any file that exists, any window of at least one, any interleaving of the two threads and any order of arrival:
      each of the segments is asked for the first time exactly once and in order, and what is written is always the
      segments before the writer's position, in order. */
  lemma EveryRunIsSafe(segments: seq<Blob>, window: nat, schedule: seq<Action>)
    requires 1 <= window && 0 < |segments|
    ensures var s := Run(segments, Begin(window, |segments|).value, schedule);
      && Inv(segments, s)
      && |s.requested| <= |segments| && (forall i :: 0 <= i < |s.requested| ==> s.requested[i] == i)
      && s.out <= segments && (if s.writer.Write? then |s.out| + 1 else |s.out|) == s.position
      && (s.writer.Stopped? ==> s.out == segments)
  {
    BeginInv(segments, window);
    RunKeepsInv(segments, Begin(window, |segments|).value, schedule);
  }

  /** No lost wakeup: with nothing outstanding, the network thread listening, and the writer unable to take a step, the
      writer has stopped and the file is complete; and every segment was asked for. */
  lemma QuietMeansComplete(segments: seq<Blob>, s: State)
    requires Inv(segments, s) && !s.aborted
    requires s.retries == map[] && s.net.Listening? && !Enabled(s, Writing)
    ensures s.writer.Stopped? && s.position == s.max && s.out == segments && |s.requested| == s.max
  {
    assert s.position < s.max ==> s.position in s.pending;
  }

  /** An unfinished download is waiting for an Interest, or one of its threads can go on. */
  lemma NeverStuck(segments: seq<Blob>, s: State)
    requires Inv(segments, s) && !s.aborted && !s.writer.Stopped?
    ensures Enabled(s, Writing) || Enabled(s, Network) || exists i :: i in s.retries && Enabled(s, Deliver(i))
  {
    if !Enabled(s, Writing) && s.net.Listening? {
      if s.retries == map[] {
        QuietMeansComplete(segments, s);
      } else {
        var i :| i in s.retries;
        assert Enabled(s, Deliver(i));
      }
    }
  }

  // ---- Every run ends ----

  // The segments that have not been received yet.
  function Awaited(s: State): nat { s.max - Asked(s) + |s.retries| }

  // The permits that are there and those still to be released.
  function PermitsToCome(s: State): nat {
    s.permits + Awaited(s) + if s.net.Put? || s.net.Release? then 1 else 0
  }

  function NetworkRank(net: Net): nat {
    match net case Listening => 0 case Put(_) => 3 case Release => 2 case AskNext => 1
  }

  function WriterRank(writer: Writer): nat {
    match writer
    case Stopped => 0
    case Acquire(_) => 1
    case LookAgain => 2
    case Look => 3
    case Test => 4
    case Remove(_) => 4
    case Get => 5
    case Write(_) => 6
  }

  // The steps a download has left at most, timeouts aside: four of the network thread for each segment it still waits
  // for, five of the writer for each permit, three for each segment it has to write.
  function Work(s: State): nat
    requires s.position <= s.max
  {
    if s.aborted then 0
    else 4 * Awaited(s) + NetworkRank(s.net) + 5 * PermitsToCome(s) + 3 * (s.max - s.position) + WriterRank(s.writer)
  }

  lemma AskingGrows(m: map<nat, nat>, i: nat, v: nat)
    ensures |m[i := v]| == if i in m then |m| else |m| + 1
  {
    assert m[i := v].Keys == m.Keys + {i};
    assert |m[i := v]| == |m[i := v].Keys| && |m| == |m.Keys|;
  }

  lemma ReceivingShrinks(m: map<nat, nat>, i: nat)
    requires i in m
    ensures |m - {i}| == |m| - 1
  {
    assert (m - {i}).Keys == m.Keys - {i};
    assert |m - {i}| == |(m - {i}).Keys| && |m| == |m.Keys|;
  }

  lemma NetworkIsProgress(segments: seq<Blob>, s: State)
    requires Defined(segments, s) && Enabled(s, Network) && s.position <= s.max
    requires forall i :: i in s.retries ==> i < Asked(s)
    ensures NetworkStep(segments, s).position <= NetworkStep(segments, s).max
    ensures Work(NetworkStep(segments, s)) < Work(s)
  {
    AskingGrows(s.retries, s.next, RETRIES);
    assert Asked(s) <= s.next;
    assert s.next !in s.retries;
  }

  lemma WriterIsProgress(s: State)
    requires WakeOk(s) && Enabled(s, Writing) && s.position <= s.max
    requires s.writer.Remove? ==> s.position in s.pending && s.position < s.max
    ensures WriterStep(s).position <= WriterStep(s).max
    ensures Work(WriterStep(s)) < Work(s)
  {}

  lemma TimeoutDisablesNothing(segments: seq<Blob>, s: State, i: nat, a: Action)
    requires Inv(segments, s) && Enabled(s, Timeout(i)) && Enabled(s, a)
    ensures Defined(segments, s)
    ensures var s' := Step(segments, s, Timeout(i));
      s'.position <= s'.max && if s'.aborted then Work(s') == 0 else Enabled(s', a)
  {}

  /** Every step but a timeout leaves less to be done, a timeout leaves the same or aborts. */
  lemma StepIsProgress(segments: seq<Blob>, s: State, a: Action)
    requires Inv(segments, s) && Enabled(s, a)
    ensures Defined(segments, s) && Inv(segments, Step(segments, s, a))
    ensures Work(Step(segments, s, a)) <= if a.Timeout? then Work(s) else Work(s) - 1
  {
    InvDefines(segments, s);
    StepKeepsInv(segments, s, a);
    match a
    case Deliver(i) => ReceivingShrinks(s.retries, i);
    case Timeout(i) => AskingGrows(s.retries, i, if 0 < s.retries[i] then s.retries[i] - 1 else 0);
    case Network => NetworkIsProgress(segments, s);
    case Writing => WriterIsProgress(s);
  }

  // How many steps other than timeouts are taken in a run.
  ghost function Taken(segments: seq<Blob>, s: State, schedule: seq<Action>): nat
    decreases |schedule|
  {
    if |schedule| == 0 then 0
    else if Defined(segments, s) && Enabled(s, schedule[0]) then
      (if schedule[0].Timeout? then 0 else 1) + Taken(segments, Step(segments, s, schedule[0]), schedule[1..])
    else Taken(segments, s, schedule[1..])
  }

  lemma {:induction false} TakenIsPaid(segments: seq<Blob>, s: State, schedule: seq<Action>)
    requires Inv(segments, s)
    ensures Inv(segments, Run(segments, s, schedule))
    ensures Taken(segments, s, schedule) + Work(Run(segments, s, schedule)) <= Work(s)
    decreases |schedule|
  {
    RunKeepsInv(segments, s, schedule);
    hide Inv, Step, Enabled, Work;
    if |schedule| > 0 {
      InvDefines(segments, s);
      if Enabled(s, schedule[0]) {
        StepIsProgress(segments, s, schedule[0]);
        TakenIsPaid(segments, Step(segments, s, schedule[0]), schedule[1..]);
      } else {
        TakenIsPaid(segments, s, schedule[1..]);
      }
    }
  }

  lemma BeginWork(segments: seq<Blob>, window: nat)
    requires 1 <= window && 0 < |segments|
    ensures var s := Begin(window, |segments|).value;
      Inv(segments, s) && Work(s) == 12 * |segments| + 3
  {
    BeginInv(segments, window);
    var s := Begin(window, |segments|).value;
    var s0 := State(window, |segments|, map[], 0, 0, [], map[], Listening, Look, false, []);
    OpenedInv(s0, 0, Min(window, |segments|));
    FirstNumbers(s.retries, Asked(s));
  }

  lemma {:induction false} FirstNumbers(m: map<nat, nat>, n: nat)
    requires forall j: nat :: j in m <==> j < n
    ensures |m| == n
  {
    if n == 0 {
      assert m == map[];
    } else {
      ReceivingShrinks(m, n - 1);
      FirstNumbers(m - {n - 1}, n - 1);
    }
  }

  /** Whatever is delivered and however the threads are scheduled, a download of n segments takes at most 12 * n + 3 steps
      besides timeouts. */
  lemma EveryRunEnds(segments: seq<Blob>, window: nat, schedule: seq<Action>)
    requires 1 <= window && 0 < |segments|
    ensures Taken(segments, Begin(window, |segments|).value, schedule) <= 12 * |segments| + 3
  {
    BeginWork(segments, window);
    TakenIsPaid(segments, Begin(window, |segments|).value, schedule);
  }

  // A round gives each thread a turn and, if something is awaited at its start, answers some Interest that is outstanding.
  ghost predicate Fair(s: State, round: seq<Action>) {
    && Network in round && Writing in round
    && (s.retries != map[] ==> exists i :: i in s.retries && Deliver(i) in round)
  }

  ghost predicate FairRounds(segments: seq<Blob>, s: State, rounds: seq<seq<Action>>)
    decreases |rounds|
  {
    |rounds| == 0 || (Fair(s, rounds[0]) && FairRounds(segments, Run(segments, s, rounds[0]), rounds[1..]))
  }

  ghost function RunRounds(segments: seq<Blob>, s: State, rounds: seq<seq<Action>>): State
    decreases |rounds|
  {
    if |rounds| == 0 then s else RunRounds(segments, Run(segments, s, rounds[0]), rounds[1..])
  }

  lemma {:induction false} TurnIsProgress(segments: seq<Blob>, s: State, round: seq<Action>, a: Action)
    requires Inv(segments, s) && Enabled(s, a) && !a.Timeout? && a in round
    ensures Inv(segments, Run(segments, s, round)) && Work(Run(segments, s, round)) < Work(s)
    decreases |round|
  {
    hide Inv, Step, Enabled, Work;
    RunKeepsInv(segments, s, round);
    InvDefines(segments, s);
    StepIsProgress(segments, s, a);
    var b := round[0];
    assert b == a || a in round[1..];
    if !Enabled(s, b) {
      TurnIsProgress(segments, s, round[1..], a);
    } else {
      StepIsProgress(segments, s, b);
      var s' := Step(segments, s, b);
      TakenIsPaid(segments, s', round[1..]);
      if b.Timeout? {
        TimeoutDisablesNothing(segments, s, b.segment, a);
        if !s'.aborted {
          TurnIsProgress(segments, s', round[1..], a);
        }
      }
    }
  }

  lemma RoundIsProgress(segments: seq<Blob>, s: State, round: seq<Action>)
    requires Inv(segments, s) && Fair(s, round) && !s.aborted && !s.writer.Stopped?
    ensures Inv(segments, Run(segments, s, round)) && Work(Run(segments, s, round)) < Work(s)
  {
    NeverStuck(segments, s);
    if Enabled(s, Writing) {
      TurnIsProgress(segments, s, round, Writing);
    } else if Enabled(s, Network) {
      TurnIsProgress(segments, s, round, Network);
    } else {
      var i :| i in s.retries && Deliver(i) in round;
      TurnIsProgress(segments, s, round, Deliver(i));
    }
  }

  // A download that is over stays over.
  lemma {:induction false} OverStays(segments: seq<Blob>, s: State, schedule: seq<Action>)
    requires Inv(segments, s) && (s.aborted || s.writer.Stopped?)
    ensures var s' := Run(segments, s, schedule); Inv(segments, s') && (s'.aborted || s'.writer.Stopped?)
    decreases |schedule|
  {
    if |schedule| > 0 {
      InvDefines(segments, s);
      if Enabled(s, schedule[0]) {
        StepKeepsInv(segments, s, schedule[0]);
        OverStays(segments, Step(segments, s, schedule[0]), schedule[1..]);
      } else {
        OverStays(segments, s, schedule[1..]);
      }
    }
  }

  lemma {:induction false} RoundsComplete(segments: seq<Blob>, s: State, rounds: seq<seq<Action>>)
    requires Inv(segments, s) && FairRounds(segments, s, rounds)
    requires s.aborted || s.writer.Stopped? || Work(s) < |rounds|
    ensures var s' := RunRounds(segments, s, rounds); Inv(segments, s') && (s'.aborted || s'.writer.Stopped?)
    decreases |rounds|
  {
    hide Inv, Work, Fair;
    if |rounds| > 0 {
      var s' := Run(segments, s, rounds[0]);
      if s.aborted || s.writer.Stopped? {
        OverStays(segments, s, rounds[0]);
      } else {
        RoundIsProgress(segments, s, rounds[0]);
      }
      RoundsComplete(segments, s', rounds[1..]);
    }
  }

  /** A download whose threads get their turns and whose Interests are answered comes to its end: after 12 * n + 4 fair
      rounds, whatever else happens in them and in whatever order, it was aborted or the file has been written. */
  lemma FairRunsComplete(segments: seq<Blob>, window: nat, rounds: seq<seq<Action>>)
    requires 1 <= window && 0 < |segments|
    requires FairRounds(segments, Begin(window, |segments|).value, rounds)
    requires 12 * |segments| + 4 <= |rounds|
    ensures var s := RunRounds(segments, Begin(window, |segments|).value, rounds);
      s.aborted || (s.writer.Stopped? && s.out == segments)
  {
    BeginWork(segments, window);
    RoundsComplete(segments, Begin(window, |segments|).value, rounds);
  }

  // ---- The window is kept full ----

  // Interests outstanding, and the one whose answer the network thread is busy with.
  function InFlight(s: State): nat { |s.retries| + if s.net.Listening? then 0 else 1 }

  ghost predicate WindowFull(window: nat, s: State) { !s.aborted && Asked(s) < s.max ==> InFlight(s) == window }

  lemma StepKeepsWindowFull(segments: seq<Blob>, window: nat, s: State, a: Action)
    requires Defined(segments, s) && Enabled(s, a) && WindowFull(window, s)
    requires forall i :: i in s.retries ==> i < Asked(s)
    ensures WindowFull(window, Step(segments, s, a))
  {
    if a.Deliver? {
      ReceivingShrinks(s.retries, a.segment);
    } else if a.Timeout? {
      AskingGrows(s.retries, a.segment, if 0 < s.retries[a.segment] then s.retries[a.segment] - 1 else 0);
    } else if a.Network? {
      AskingGrows(s.retries, s.next, RETRIES);
      assert Asked(s) <= s.next;
      assert s.next !in s.retries;
    }
  }

  lemma OutstandingIsAsked(segments: seq<Blob>, s: State)
    requires Inv(segments, s)
    ensures forall i :: i in s.retries ==> i < Asked(s)
  {
    hide ContentsOk, WakeOk, AskedOnce;
  }

  lemma {:induction false} RunKeepsWindowFull(segments: seq<Blob>, window: nat, s: State, schedule: seq<Action>)
    requires Inv(segments, s) && WindowFull(window, s)
    ensures WindowFull(window, Run(segments, s, schedule))
    decreases |schedule|
  {
    hide Inv, Step, Enabled, WindowFull, Asked;
    if |schedule| > 0 {
      InvDefines(segments, s);
      if Enabled(s, schedule[0]) {
        OutstandingIsAsked(segments, s);
        StepKeepsInv(segments, s, schedule[0]);
        StepKeepsWindowFull(segments, window, s, schedule[0]);
        RunKeepsWindowFull(segments, window, Step(segments, s, schedule[0]), schedule[1..]);
      } else {
        RunKeepsWindowFull(segments, window, s, schedule[1..]);
      }
    }
  }

  /** While segments are left to ask for, a whole window is in flight, in every run. */
  lemma WindowIsFull(segments: seq<Blob>, window: nat, schedule: seq<Action>)
    requires 1 <= window && 0 < |segments|
    ensures var s := Run(segments, Begin(window, |segments|).value, schedule);
      !s.aborted && Asked(s) < |segments| ==> InFlight(s) == window
  {
    BeginInv(segments, window);
    var s := Begin(window, |segments|).value;
    var s0 := State(window, |segments|, map[], 0, 0, [], map[], Listening, Look, false, []);
    OpenedInv(s0, 0, Min(window, |segments|));
    FirstNumbers(s.retries, Asked(s));
    RunKeepsWindowFull(segments, window, s, schedule);
    SameMax(segments, s, schedule);
  }

  lemma {:induction false} SameMax(segments: seq<Blob>, s: State, schedule: seq<Action>)
    ensures Run(segments, s, schedule).max == s.max
    decreases |schedule|
  {
    if |schedule| > 0 {
      SameMax(segments, if Defined(segments, s) && Enabled(s, schedule[0]) then Step(segments, s, schedule[0]) else s,
              schedule[1..]);
    }
  }

  // ---- When a download is aborted ----

  // How often segment i has timed out.
  function Strikes(strikes: map<nat, nat>, i: nat): nat { if i in strikes then strikes[i] else 0 }

  function StrikesAfter(strikes: map<nat, nat>, a: Action): map<nat, nat> {
    if a.Timeout? then strikes[a.segment := Strikes(strikes, a.segment) + 1] else strikes
  }

  // A timeout after which the segment is asked for again.
  predicate IsBorne(strikes: map<nat, nat>, a: Action) { a.Timeout? ==> Strikes(strikes, a.segment) < RETRIES }

  // Every timeout that is met in the run is borne.
  ghost predicate Bearable(segments: seq<Blob>, s: State, strikes: map<nat, nat>, schedule: seq<Action>)
    decreases |schedule|
  {
    |schedule| > 0 ==>
      var a := schedule[0];
      if Defined(segments, s) && Enabled(s, a) then
        IsBorne(strikes, a) && Bearable(segments, Step(segments, s, a), StrikesAfter(strikes, a), schedule[1..])
      else Bearable(segments, s, strikes, schedule[1..])
  }

  // The repeats left are RETRIES less the strikes; segments not asked for yet have none.
  ghost predicate StrikesAgree(s: State, strikes: map<nat, nat>) {
    && (forall i :: i in s.retries ==> s.retries[i] + Strikes(strikes, i) == RETRIES)
    && (forall i: nat :: Asked(s) <= i ==> Strikes(strikes, i) == 0)
  }

  lemma QuietStepKeepsStrikes(segments: seq<Blob>, s: State, strikes: map<nat, nat>, a: Action)
    requires Defined(segments, s) && Enabled(s, a) && !a.Timeout? && StrikesAgree(s, strikes)
    ensures var s' := Step(segments, s, a); !s'.aborted && StrikesAgree(s', strikes)
  {
    var s' := Step(segments, s, a);
    forall i: nat | Asked(s') <= i ensures Strikes(strikes, i) == 0 {
      assert Asked(s) <= i;
    }
    if a.Network? && s.net.AskNext? && s.next + 1 <= s.max {
      assert Strikes(strikes, s.next) == 0;
    }
  }

  lemma TimeoutKeepsStrikes(segments: seq<Blob>, s: State, strikes: map<nat, nat>, i: nat)
    requires Defined(segments, s) && Enabled(s, Timeout(i)) && StrikesAgree(s, strikes) && i < Asked(s)
    ensures var s' := Step(segments, s, Timeout(i));
      && (s'.aborted <==> !IsBorne(strikes, Timeout(i)))
      && (IsBorne(strikes, Timeout(i)) ==> StrikesAgree(s', StrikesAfter(strikes, Timeout(i))))
  {
    var s', after := Step(segments, s, Timeout(i)), StrikesAfter(strikes, Timeout(i));
    forall j: nat | Asked(s') <= j ensures Strikes(after, j) == 0 {
      assert Strikes(strikes, j) == 0;
    }
  }

  lemma StepKeepsStrikes(segments: seq<Blob>, s: State, strikes: map<nat, nat>, a: Action)
    requires Inv(segments, s) && Defined(segments, s) && Enabled(s, a) && StrikesAgree(s, strikes)
    ensures var s' := Step(segments, s, a);
      && (s'.aborted <==> !IsBorne(strikes, a))
      && (IsBorne(strikes, a) ==> StrikesAgree(s', StrikesAfter(strikes, a)))
  {
    hide Step, StrikesAgree;
    if a.Timeout? {
      hide ContentsOk, WakeOk, AskedOnce;
      assert a.segment < Asked(s);
      TimeoutKeepsStrikes(segments, s, strikes, a.segment);
    } else {
      hide Inv;
      QuietStepKeepsStrikes(segments, s, strikes, a);
    }
  }

  lemma {:induction false} AbortedStays(segments: seq<Blob>, s: State, schedule: seq<Action>)
    requires s.aborted
    ensures Run(segments, s, schedule) == s
    decreases |schedule|
  {
    if |schedule| > 0 {
      AbortedStays(segments, s, schedule[1..]);
    }
  }

  lemma {:induction false} AbortsFrom(segments: seq<Blob>, s: State, strikes: map<nat, nat>, schedule: seq<Action>)
    requires Inv(segments, s) && !s.aborted && StrikesAgree(s, strikes)
    ensures Run(segments, s, schedule).aborted <==> !Bearable(segments, s, strikes, schedule)
    decreases |schedule|
  {
    hide Inv, Step, Enabled, StrikesAgree, IsBorne, StrikesAfter;
    if |schedule| > 0 {
      var a := schedule[0];
      InvDefines(segments, s);
      if Enabled(s, a) {
        StepKeepsInv(segments, s, a);
        StepKeepsStrikes(segments, s, strikes, a);
        if IsBorne(strikes, a) {
          AbortsFrom(segments, Step(segments, s, a), StrikesAfter(strikes, a), schedule[1..]);
        } else {
          AbortedStays(segments, Step(segments, s, a), schedule[1..]);
        }
      } else {
        AbortsFrom(segments, s, strikes, schedule[1..]);
      }
    }
  }

  lemma BeginStrikes(segments: seq<Blob>, window: nat)
    requires 1 <= window && 0 < |segments|
    ensures var s := Begin(window, |segments|).value; StrikesAgree(s, map[]) && !s.aborted
  {
    OpenedStrikes(State(window, |segments|, map[], 0, 0, [], map[], Listening, Look, false, []), 0, Min(window, |segments|));
  }

  lemma {:induction false} OpenedStrikes(s: State, i: nat, limit: nat)
    requires StrikesAgree(s, map[]) && !s.aborted
    ensures StrikesAgree(Opened(s, i, limit), map[]) && !Opened(s, i, limit).aborted
    decreases limit - i
  {
    if i < limit {
      OpenedStrikes(Ask(s, i), i + 1, limit);
    }
  }

  /** Exactly when a download is aborted: when a segment it waits for times out once more after it has timed out RETRIES
      times. */
  lemma AbortsIffUnbearable(segments: seq<Blob>, window: nat, schedule: seq<Action>)
    requires 1 <= window && 0 < |segments|
    ensures var s := Begin(window, |segments|).value;
      Run(segments, s, schedule).aborted <==> !Bearable(segments, s, map[], schedule)
  {
    BeginInv(segments, window);
    BeginStrikes(segments, window);
    AbortsFrom(segments, Begin(window, |segments|).value, map[], schedule);
  }

  // The same said of the schedule alone: no more than RETRIES timeouts of any segment.
  predicate Patient(strikes: map<nat, nat>, schedule: seq<Action>)
    decreases |schedule|
  {
    |schedule| > 0 ==> IsBorne(strikes, schedule[0]) && Patient(StrikesAfter(strikes, schedule[0]), schedule[1..])
  }

  ghost predicate NoMore(strikes: map<nat, nat>, more: map<nat, nat>) {
    forall i: nat :: Strikes(strikes, i) <= Strikes(more, i)
  }

  lemma {:induction false} PatientIsBearable(segments: seq<Blob>, s: State, strikes: map<nat, nat>, more: map<nat, nat>,
                                             schedule: seq<Action>)
    requires NoMore(strikes, more) && Patient(more, schedule)
    ensures Bearable(segments, s, strikes, schedule)
    decreases |schedule|
  {
    hide Step, Enabled, Defined;
    if |schedule| > 0 {
      var a := schedule[0];
      assert NoMore(strikes, StrikesAfter(more, a)) && NoMore(StrikesAfter(strikes, a), StrikesAfter(more, a));
      assert IsBorne(strikes, a);
      hide NoMore, IsBorne, StrikesAfter;
      if Defined(segments, s) && Enabled(s, a) {
        PatientIsBearable(segments, Step(segments, s, a), StrikesAfter(strikes, a), StrikesAfter(more, a), schedule[1..]);
      } else {
        PatientIsBearable(segments, s, strikes, StrikesAfter(more, a), schedule[1..]);
      }
    }
  }

  /** Lost packets are asked for again: with no more than RETRIES timeouts of any segment a download is never aborted. */
  lemma PatientIsNotAborted(segments: seq<Blob>, window: nat, schedule: seq<Action>)
    requires 1 <= window && 0 < |segments| && Patient(map[], schedule)
    ensures !Run(segments, Begin(window, |segments|).value, schedule).aborted
  {
    PatientIsBearable(segments, Begin(window, |segments|).value, map[], map[], schedule);
    AbortsIffUnbearable(segments, window, schedule);
  }

  function Flat(rounds: seq<seq<Action>>): seq<Action> {
    if |rounds| == 0 then [] else rounds[0] + Flat(rounds[1..])
  }

  lemma {:induction false} RunSplits(segments: seq<Blob>, s: State, before: seq<Action>, after: seq<Action>)
    ensures Run(segments, s, before + after) == Run(segments, Run(segments, s, before), after)
    decreases |before|
  {
    hide Step, Enabled, Defined;
    if |before| == 0 {
      assert before + after == after;
    } else {
      assert (before + after)[0] == before[0] && (before + after)[1..] == before[1..] + after;
      RunSplits(segments, if Defined(segments, s) && Enabled(s, before[0]) then Step(segments, s, before[0]) else s,
                before[1..], after);
    }
  }

  lemma {:induction false} RoundsAreRun(segments: seq<Blob>, s: State, rounds: seq<seq<Action>>)
    ensures RunRounds(segments, s, rounds) == Run(segments, s, Flat(rounds))
    decreases |rounds|
  {
    if |rounds| > 0 {
      RunSplits(segments, s, rounds[0], Flat(rounds[1..]));
      RoundsAreRun(segments, Run(segments, s, rounds[0]), rounds[1..]);
    }
  }

  /** And if its threads get their turns and its Interests are answered, the file has been written after 12 * n + 4 fair
      rounds. */
  lemma PatientRunsComplete(segments: seq<Blob>, window: nat, rounds: seq<seq<Action>>)
    requires 1 <= window && 0 < |segments| && Patient(map[], Flat(rounds))
    requires FairRounds(segments, Begin(window, |segments|).value, rounds)
    requires 12 * |segments| + 4 <= |rounds|
    ensures var s := RunRounds(segments, Begin(window, |segments|).value, rounds);
      !s.aborted && s.writer.Stopped? && s.out == segments
  {
    FairRunsComplete(segments, window, rounds);
    RoundsAreRun(segments, Begin(window, |segments|).value, rounds);
    PatientIsNotAborted(segments, window, Flat(rounds));
  }

  // ---- The same, in place ----

  /** The map of received segments and the position of the next one to write. */
  class PendingFile {
    var blobs: map<nat, Blob>
    const maxSegment: nat
    var position: nat

    constructor (maxSegment: nat)
      ensures blobs == map[] && this.maxSegment == maxSegment && position == 0
    {
      blobs, this.maxSegment, position := map[], maxSegment, 0;
    }

    method Put(segment: nat, blob: Blob)
      modifies this`blobs
      ensures blobs == old(blobs)[segment := blob]
    {
      blobs := blobs[segment := blob];
    }

    predicate IsPending()
      reads this
    {
      position < maxSegment
    }

    // The test of nextSegment.
    method Peek() returns (blob: Option<Blob>)
      ensures blob == if position in blobs then Some(blobs[position]) else None
    {
      blob := if position in blobs then Some(blobs[position]) else None;
    }

    // What nextSegment does when the segment is there.
    method Remove() returns (blob: Blob)
      requires position in blobs
      modifies this
      ensures blob == old(blobs)[old(position)]
      ensures blobs == old(blobs) - {old(position)} && position == old(position) + 1
    {
      blob := blobs[position];
      blobs := blobs - {position};
      position := position + 1;
    }

    /** Takes the segment at the position, if it is there, and moves on. */
    method NextSegment() returns (blob: Option<Blob>)
      modifies this
      ensures blob == if old(position in blobs) then Some(old(blobs)[old(position)]) else None
      ensures blobs == old(blobs) - {old(position)}
      ensures position == if blob.Some? then old(position) + 1 else old(position)
    {
      blob := Peek();
      if blob.Some? {
        var taken := Remove();
      } else {
        assert blobs - {position} == blobs;
      }
    }

    // The segments that stand next to each other from the position on.
    ghost function Ready(): seq<Blob>
      reads this
    {
      InARow(blobs, position)
    }

    /** The inner loop of FileManager: every segment that is next in order is written, and none is skipped. */
    method Drain() returns (written: seq<Blob>)
      modifies this
      ensures written == old(Ready()) && position == old(position) + |written| && position !in blobs
    {
      written := [];
      var blob := NextSegment();
      while blob.Some?
        invariant if blob.Some? then written + [blob.value] + Ready() == old(Ready())
                                     && position == old(position) + |written| + 1
                  else written == old(Ready()) && position == old(position) + |written| && position !in blobs
        decreases blobs.Keys, blob.Some?
      {
        written := written + [blob.value];
        blob := NextSegment();
      }
    }
  }

  ghost function InARow(blobs: map<nat, Blob>, position: nat): seq<Blob>
    decreases blobs.Keys
  {
    if position in blobs then [blobs[position]] + InARow(blobs - {position}, position + 1) else []
  }

  /** The client with its two threads: the window, what is outstanding, the permits posted for the writer, where each
      thread stands, and what was written. */
  class Client {
    var next: nat
    var max: int
    var file: PendingFile?
    var retries: map<nat, nat>
    var filePass: nat
    var net: Net
    var writer: Writer
    var out: seq<Blob>
    var aborted: bool
    var requested: seq<nat>

    constructor (window: nat)
      ensures next == window && file == null && retries == map[] && filePass == 0 && requested == [] && out == []
      ensures net == Listening && writer == Look && !aborted
    {
      next, max, file, retries, filePass, requested, out := window, 0, null, map[], 0, [], [];
      net, writer, aborted := Listening, Look, false;
    }

    // The number of segments is known, and there are some.
    ghost predicate Downloading()
      reads this
    {
      file != null && 0 < max && file.maxSegment == max
    }

    ghost function Abs(): State
      requires Downloading()
      reads this, file
    {
      State(next, max, file.blobs, filePass, file.position, out, retries, net, writer, aborted, requested)
    }

    method ExpressInterest(segment: nat)
      modifies `retries, `requested
      ensures retries == old(retries)[segment := RETRIES] && requested == old(requested) + [segment]
    {
      retries := retries[segment := RETRIES];
      requested := requested + [segment];
    }

    /** The answer with the number of segments: the first window is asked for, or the file is reported missing. */
    method OnAnnouncement(announced: int) returns (found: bool)
      requires file == null && retries == map[] && filePass == 0 && requested == [] && out == []
      requires net == Listening && writer == Look && !aborted
      modifies this
      ensures found <==> Begin(old(next), announced).Some?
      ensures found ==> Downloading() && fresh(file) && Abs() == Begin(old(next), announced).value
    {
      max := announced;
      if max <= 0 {
        return false;
      }
      file := new PendingFile(max);
      var limit := if next < max then next else max;
      ghost var s0 := Abs();
      var i := 0;
      while i < limit
        invariant 0 <= i <= limit && Downloading() && fresh(file)
        invariant Abs() == s0.(retries := retries, requested := requested)
        invariant Opened(Abs(), i, limit) == Opened(s0, 0, limit)
      {
        ExpressInterest(i);
        i := i + 1;
      }
      return true;
    }

    // A segment arrives: the callback has begun.
    method OnData(segment: nat)
      requires Downloading() && Enabled(Abs(), Deliver(segment))
      modifies `retries, `net
      ensures Abs() == old(Abs()).(retries := old(retries) - {segment}, net := Put(segment))
    {
      retries := retries - {segment};
      net := Put(segment);
    }

    // The next access of nextDownloadInterest, for a segment with the given content.
    method NextDownloadInterest(segments: seq<Blob>)
      requires Downloading() && Defined(segments, Abs()) && Enabled(Abs(), Network)
      modifies this, file
      ensures Downloading() && file == old(file) && Abs() == NetworkStep(segments, old(Abs()))
    {
      match net
      case Put(i) =>
        file.Put(i, segments[i]);
        net := Release;
      case Release =>
        filePass := filePass + 1;
        net := AskNext;
      case AskNext =>
        var n := next;
        next := next + 1;
        if next <= max {
          ExpressInterest(n);
        }
        net := Listening;
    }

    method OnTimeout(segment: nat, ghost segments: seq<Blob>)
      requires Downloading() && Defined(segments, Abs()) && Enabled(Abs(), Timeout(segment))
      modifies `retries, `aborted
      ensures Downloading() && Abs() == Step(segments, old(Abs()), Timeout(segment))
    {
      if 0 < retries[segment] {
        retries := retries[segment := retries[segment] - 1];
      } else {
        aborted := true;
      }
    }

    // The next access of FileManager.
    method FileManager()
      requires Downloading() && Enabled(Abs(), Writing) && (writer.Remove? ==> file.position in file.blobs)
      modifies this, file
      ensures Downloading() && file == old(file) && Abs() == WriterStep(old(Abs()))
    {
      match writer
      case Look => writer := if 0 < filePass then LookAgain else Acquire(1);
      case LookAgain => writer := Acquire(filePass);
      case Acquire(permits) =>
        filePass := filePass - permits;
        writer := Get;
      case Get =>
        var blob := file.Peek();
        writer := if blob.Some? then Remove(blob.value) else Test;
      case Remove(_) =>
        var blob := file.Remove();
        writer := Write(blob);
      case Write(blob) =>
        out := out + [blob];
        writer := Get;
      case Test => writer := if file.IsPending() then Look else Stopped;
    }

    // Whether a step can be taken.
    method CanDo(a: Action) returns (can: bool)
      requires Downloading()
      ensures can == Enabled(Abs(), a)
    {
      if aborted {
        return false;
      }
      match a
      case Deliver(i) => can := net.Listening? && i in retries;
      case Timeout(i) => can := net.Listening? && i in retries;
      case Network => can := !net.Listening?;
      case Writing => can := !writer.Stopped? && (writer.Acquire? ==> writer.permits <= filePass);
    }

    method Do(segments: seq<Blob>, a: Action)
      requires Downloading() && Inv(segments, Abs()) && Enabled(Abs(), a)
      modifies this, file
      ensures Downloading() && file == old(file) && Inv(segments, Abs())
      ensures Defined(segments, old(Abs())) && Abs() == Step(segments, old(Abs()), a)
    {
      StepKeepsInv(segments, Abs(), a);
      hide Inv;
      match a
      case Deliver(i) => OnData(i);
      case Timeout(i) => OnTimeout(i, segments);
      case Network => NextDownloadInterest(segments);
      case Writing => FileManager();
    }

    /** The client, its callbacks and its writer interleaved in any order, is where the run of the machine is. */
    method Follow(segments: seq<Blob>, schedule: seq<Action>)
      requires Downloading() && Inv(segments, Abs())
      modifies this, file
      ensures Downloading() && file == old(file) && Inv(segments, Abs())
      ensures Abs() == Run(segments, old(Abs()), schedule)
    {
      ghost var s := Abs();
      var i := 0;
      while i < |schedule|
        invariant 0 <= i <= |schedule| && Downloading() && file == old(file) && Inv(segments, Abs())
        invariant Run(segments, Abs(), schedule[i..]) == Run(segments, s, schedule)
      {
        hide Inv, Enabled, Step;
        InvDefines(segments, Abs());
        assert schedule[i..][1..] == schedule[i + 1..];
        var can := CanDo(schedule[i]);
        if can {
          Do(segments, schedule[i]);
        }
        i := i + 1;
      }
    }
  }

  /** A download from its constructor through any schedule: if the file exists, what is written is its beginning, and
      the file when the writer has stopped. */
  method FollowFromStart(segments: seq<Blob>, window: nat, schedule: seq<Action>) returns (client: Client, found: bool)
    requires 1 <= window
    ensures found <==> 0 < |segments|
    ensures found ==> client.Downloading()
                      && client.Abs() == Run(segments, Begin(window, |segments|).value, schedule)
                      && client.out <= segments && (client.writer.Stopped? ==> client.out == segments)
  {
    client := new Client(window);
    found := client.OnAnnouncement(|segments|);
    if found {
      BeginInv(segments, window);
      client.Follow(segments, schedule);
      EveryRunIsSafe(segments, window, schedule);
    }
  }
}
