/** The windowed download of a file: how the server slices it and how the client asks for, reorders and writes its
    segments. */
module Download {
  import opened Words

  type Byte = bv8

  // ---- The server: the download branch of process ----

  function Min(a: nat, b: nat): nat { if a < b then a else b }

  // max_seg_num: the number of the last segment of a file that is not empty.
  function MaxSegment(length: nat, payload: nat): nat
    requires 0 < length && 0 < payload
  {
    (length - 1) / payload
  }

  // What seekg to segment * payload and a read of payload bytes deliver; nothing when the file ends before.
  function Content(file: seq<Byte>, payload: nat, segment: nat): seq<Byte> {
    file[Min(segment * payload, |file|)..Min(segment * payload + payload, |file|)]
  }

  // The first n segments one after the other.
  function Concat(file: seq<Byte>, payload: nat, n: nat): seq<Byte> {
    if n == 0 then [] else Concat(file, payload, n - 1) + Content(file, payload, n - 1)
  }

  /** Consecutive segments join without gap or overlap. */
  lemma {:induction false} ConcatIsPrefix(file: seq<Byte>, payload: nat, n: nat)
    ensures Concat(file, payload, n) == file[..Min(n * payload, |file|)]
  {
    if n > 0 {
      ConcatIsPrefix(file, payload, n - 1);
      OneMore(n, payload);
    }
  }

  lemma OneMore(n: nat, payload: nat)
    requires 0 < n
    ensures n * payload == (n - 1) * payload + payload && 0 <= (n - 1) * payload
  {}

  lemma Scaled(a: nat, b: nat, payload: nat)
    requires a <= b
    ensures a * payload <= b * payload
  {}

  // The last byte is in the last segment.
  lemma LastByte(length: nat, payload: nat)
    requires 0 < length && 0 < payload
    ensures var last := MaxSegment(length, payload);
      last * payload < length <= last * payload + payload && (last + 1) * payload == last * payload + payload
  {
    OneMore(MaxSegment(length, payload) + 1, payload);
  }

  /** Segments before the announced last one are full, that one is not empty, and those after it are. */
  lemma SegmentSizes(file: seq<Byte>, payload: nat, segment: nat)
    requires 0 < |file| && 0 < payload
    ensures var last := MaxSegment(|file|, payload);
      && (segment < last ==> |Content(file, payload, segment)| == payload)
      && (segment == last ==> 1 <= |Content(file, payload, segment)| <= payload)
      && (last < segment ==> Content(file, payload, segment) == [])
  {
    var last := MaxSegment(|file|, payload);
    LastByte(|file|, payload);
    hide MaxSegment;
    if segment < last {
      Scaled(segment + 1, last, payload);
      OneMore(segment + 1, payload);
    } else if last < segment {
      Scaled(last + 1, segment, payload);
    }
  }

  /** Every number of segments beyond the announced last one makes up exactly the file. */
  lemma SegmentsAreTheFile(file: seq<Byte>, payload: nat, n: nat)
    requires 0 < |file| && 0 < payload
    ensures MaxSegment(|file|, payload) < n <==> Concat(file, payload, n) == file
  {
    var last := MaxSegment(|file|, payload);
    ConcatIsPrefix(file, payload, n);
    LastByte(|file|, payload);
    hide MaxSegment, Concat;
    if last < n {
      Scaled(last + 1, n, payload);
    } else {
      Scaled(n, last, payload);
    }
  }

  // ---- The client ----

  datatype Status = Running | Completed | Aborted

  // _current_packet, _current_segment, _max_segment, _pending_segments and the bytes written. `retries`: the segments
  // with an Interest outstanding, and how often each may still be sent again. Auxiliary: `requested`, the segments in
  // the order they were first asked for.
  datatype State = State(
    packet: nat,
    segment: nat,
    maxSegment: nat,
    pending: map<nat, seq<Byte>>,
    out: seq<Byte>,
    retries: map<nat, nat>,
    status: Status,
    requested: seq<nat>)

  datatype Event = Data(segment: nat) | Timeout(segment: nat) | Nack(segment: nat, exitOnNack: bool)

  // An Interest may be sent five more times after a timeout.
  const RETRIES: nat := 5

  // A segment asked for the first time.
  function Ask(s: State): State {
    s.(packet := s.packet + 1, retries := s.retries[s.packet := RETRIES], requested := s.requested + [s.packet])
  }

  // run: the first window.
  function Opened(s: State, window: nat): State
    decreases window - s.packet
  {
    if s.packet < window then Opened(Ask(s), window) else s
  }

  function Initial(window: nat): State {
    Opened(State(0, 0, 0, map[], [], map[], Running, []), window)
  }

  // The loop of onDataFile: segments are written while the next one is there.
  function Drain(s: State): State
    decreases s.pending.Keys
  {
    if s.segment in s.pending then
      Drain(s.(out := s.out + s.pending[s.segment], pending := s.pending - {s.segment}, segment := s.segment + 1))
    else s
  }

  function OnData(s: State, segment: nat, content: seq<Byte>, final: nat): State {
    var s1 := Drain(s.(maxSegment := final, pending := s.pending[segment := content], retries := s.retries - {segment}));
    if s1.maxSegment < s1.segment then s1.(status := Completed)
    else if s1.packet <= s1.maxSegment then Ask(s1)
    else s1
  }

  predicate Enabled(s: State, e: Event) { s.status.Running? && e.segment in s.retries }

  function Step(file: seq<Byte>, payload: nat, s: State, e: Event): State
    requires 0 < |file| && 0 < payload && Enabled(s, e)
  {
    match e
    case Data(i) => OnData(s, i, Content(file, payload, i), MaxSegment(|file|, payload))
    case Timeout(i) =>
      if 0 < s.retries[i] then s.(retries := s.retries[i := s.retries[i] - 1]) else s.(status := Aborted)
    case Nack(i, exitOnNack) =>
      if exitOnNack then s.(status := Aborted) else s.(retries := s.retries[i := RETRIES])
  }

  // ---- The invariant ----

  // What has been received is what was written and what is pending, each segment as the server sent it.
  ghost predicate ContentsOk(file: seq<Byte>, payload: nat, s: State) {
    && s.out == Concat(file, payload, s.segment)
    && forall i :: i in s.pending ==> s.segment <= i < s.packet && s.pending[i] == Content(file, payload, i)
  }

  // Received and outstanding segments partition those asked for.
  ghost predicate Partition(s: State) {
    && s.segment <= s.packet
    && (forall i: nat :: i < s.packet ==> (i in s.retries <==> !(i < s.segment || i in s.pending)))
    && (forall i :: i in s.retries ==> i < s.packet)
  }

  ghost predicate AskedOnce(s: State) {
    |s.requested| == s.packet && forall i :: 0 <= i < |s.requested| ==> s.requested[i] == i
  }

  ghost predicate Inv(file: seq<Byte>, payload: nat, window: nat, s: State)
    requires 0 < |file| && 0 < payload
  {
    var last := MaxSegment(|file|, payload);
    && ContentsOk(file, payload, s) && Partition(s) && AskedOnce(s)
    && |s.retries| <= window && s.segment !in s.pending
    && (s.packet <= window || s.packet <= last + 1)
    && (s.status.Running? ==> s.segment <= last && s.retries != map[])
    && (s.status.Completed? ==> last < s.segment)
  }

  // ---- Every event keeps it ----

  lemma {:induction false} DrainKeeps(file: seq<Byte>, payload: nat, s: State)
    requires ContentsOk(file, payload, s) && Partition(s)
    ensures var s' := Drain(s);
      && ContentsOk(file, payload, s') && Partition(s') && s'.segment !in s'.pending
      && s' == s.(segment := s'.segment, pending := s'.pending, out := s'.out)
    decreases s.pending.Keys
  {
    hide Content;
    if s.segment in s.pending {
      var s1 := s.(out := s.out + s.pending[s.segment], pending := s.pending - {s.segment}, segment := s.segment + 1);
      DrainKeeps(file, payload, s1);
    }
  }

  lemma RemovalShrinks(m: map<nat, nat>, i: nat)
    requires i in m
    ensures |m - {i}| == |m| - 1
  {
    assert (m - {i}).Keys == m.Keys - {i};
    assert |m| == |m.Keys| && |m - {i}| == |(m - {i}).Keys|;
  }

  lemma UpdateGrows(m: map<nat, nat>, i: nat, v: nat)
    ensures |m[i := v]| == |m| + (if i in m then 0 else 1)
  {
    assert m[i := v].Keys == m.Keys + {i};
    assert |m| == |m.Keys| && |m[i := v]| == |m[i := v].Keys|;
  }

  // Receiving one segment, before anything is written.
  lemma ReceiveKeeps(file: seq<Byte>, payload: nat, s: State, i: nat, final: nat)
    requires ContentsOk(file, payload, s) && Partition(s) && i in s.retries
    ensures var s' := s.(maxSegment := final, pending := s.pending[i := Content(file, payload, i)], retries := s.retries - {i});
      ContentsOk(file, payload, s') && Partition(s')
  {
    hide Content, Concat;
  }

  lemma AskKeeps(file: seq<Byte>, payload: nat, s: State)
    requires ContentsOk(file, payload, s) && Partition(s) && AskedOnce(s)
    ensures ContentsOk(file, payload, Ask(s)) && Partition(Ask(s)) && AskedOnce(Ask(s))
    ensures |Ask(s).retries| == |s.retries| + 1 && Ask(s).retries != map[]
  {
    hide Content, Concat;
    UpdateGrows(s.retries, s.packet, RETRIES);
    assert s.packet in Ask(s).retries;
  }

  lemma DataKeepsInv(file: seq<Byte>, payload: nat, window: nat, s: State, i: nat)
    requires 0 < |file| && 0 < payload && Inv(file, payload, window, s) && Enabled(s, Data(i))
    ensures Inv(file, payload, window, Step(file, payload, s, Data(i)))
  {
    hide Content, Concat, MaxSegment, ContentsOk, Partition, AskedOnce;
    var last := MaxSegment(|file|, payload);
    var s0 := s.(maxSegment := last, pending := s.pending[i := Content(file, payload, i)], retries := s.retries - {i});
    ReceiveKeeps(file, payload, s, i, last);
    DrainKeeps(file, payload, s0);
    RemovalShrinks(s.retries, i);
    var s1 := Drain(s0);
    hide Drain;
    assert AskedOnce(s1) by { SameRequests(s, s1); }
    AskKeeps(file, payload, s1);
    if s1.segment <= last && last < s1.packet {
      SomeOutstanding(s1);
    }
    StatusIrrelevant(file, payload, s1);
  }

  lemma SameRequests(s: State, s': State)
    requires AskedOnce(s) && s'.requested == s.requested && s'.packet == s.packet
    ensures AskedOnce(s')
  {}

  lemma StatusIrrelevant(file: seq<Byte>, payload: nat, s: State)
    requires ContentsOk(file, payload, s) && Partition(s) && AskedOnce(s)
    ensures ContentsOk(file, payload, s.(status := Completed)) && Partition(s.(status := Completed))
            && AskedOnce(s.(status := Completed))
  {}

  // If everything asked for had been received, everything asked for would have been written.
  lemma SomeOutstanding(s: State)
    requires Partition(s) && s.segment !in s.pending && s.segment < s.packet
    ensures s.retries != map[]
  {
    assert s.segment in s.retries;
  }

  lemma StepKeepsInv(file: seq<Byte>, payload: nat, window: nat, s: State, e: Event)
    requires 0 < |file| && 0 < payload && Inv(file, payload, window, s) && Enabled(s, e)
    ensures Inv(file, payload, window, Step(file, payload, s, e))
  {
    if e.Data? {
      DataKeepsInv(file, payload, window, s, e.segment);
    } else {
      hide Content, Concat, MaxSegment;
      var s' := Step(file, payload, s, e);
      if e.segment in s'.retries {
        UpdateGrows(s.retries, e.segment, s'.retries[e.segment]);
        assert e.segment in s'.retries;
      }
    }
  }

  lemma {:induction false} OpenedInv(file: seq<Byte>, payload: nat, window: nat, s: State)
    requires 0 < |file| && 0 < payload && s.packet <= window && s.status.Running?
    requires ContentsOk(file, payload, s) && Partition(s) && AskedOnce(s) && s.segment == 0 && s.pending == map[]
    requires |s.retries| == s.packet
    ensures var s' := Opened(s, window);
      && ContentsOk(file, payload, s') && Partition(s') && AskedOnce(s') && s'.segment == 0 && s'.pending == map[]
      && s'.status.Running? && s'.packet == window == |s'.retries|
    decreases window - s.packet
  {
    if s.packet < window {
      UpdateGrows(s.retries, s.packet, RETRIES);
      OpenedInv(file, payload, window, Ask(s));
    }
  }

  function Run(file: seq<Byte>, payload: nat, s: State, events: seq<Event>): State
    requires 0 < |file| && 0 < payload
    decreases |events|
  {
    if |events| == 0 then s
    else Run(file, payload, if Enabled(s, events[0]) then Step(file, payload, s, events[0]) else s, events[1..])
  }

  lemma {:induction false} RunKeepsInv(file: seq<Byte>, payload: nat, window: nat, s: State, events: seq<Event>)
    requires 0 < |file| && 0 < payload && Inv(file, payload, window, s)
    ensures Inv(file, payload, window, Run(file, payload, s, events))
    decreases |events|
  {
    hide Inv;
    if |events| > 0 {
      if Enabled(s, events[0]) {
        StepKeepsInv(file, payload, window, s, events[0]);
        RunKeepsInv(file, payload, window, Step(file, payload, s, events[0]), events[1..]);
      } else {
        RunKeepsInv(file, payload, window, s, events[1..]);
      }
    }
  }

  /** Any file that is not empty, any payload size and window, any order of arrival, timeouts and nacks. */
  lemma EveryRunKeepsInv(file: seq<Byte>, payload: nat, window: nat, events: seq<Event>)
    requires 0 < |file| && 0 < payload && 0 < window
    ensures Inv(file, payload, window, Run(file, payload, Initial(window), events))
  {
    OpenedInv(file, payload, window, State(0, 0, 0, map[], [], map[], Running, []));
    RunKeepsInv(file, payload, window, Initial(window), events);
  }

  // ---- What it means ----

  /** What has been written is always the beginning of the file, the segments before _current_segment; when the
      download completes it is the file. */
  lemma WrittenIsTheFile(file: seq<Byte>, payload: nat, window: nat, events: seq<Event>)
    requires 0 < |file| && 0 < payload && 0 < window
    ensures var s := Run(file, payload, Initial(window), events);
      && s.out == Concat(file, payload, s.segment) && s.out <= file
      && (s.status.Completed? ==> s.out == file)
  {
    EveryRunKeepsInv(file, payload, window, events);
    var s := Run(file, payload, Initial(window), events);
    ConcatIsPrefix(file, payload, s.segment);
    if s.status.Completed? {
      SegmentsAreTheFile(file, payload, s.segment);
    }
  }

  /** Never more than a window of Interests is outstanding, each segment is asked for the first time once and in order,
      no more are asked for than the window or the file has, and an unfinished download is waiting for something that
      may still arrive. */
  lemma WindowIsKept(file: seq<Byte>, payload: nat, window: nat, events: seq<Event>)
    requires 0 < |file| && 0 < payload && 0 < window
    ensures var s := Run(file, payload, Initial(window), events);
      && |s.retries| <= window && (s.packet <= window || s.packet <= MaxSegment(|file|, payload) + 1)
      && (forall i :: i in s.retries ==> i < s.packet)
      && (forall i: nat :: i < s.packet ==> (i in s.retries <==> !(i < s.segment || i in s.pending)))
      && |s.requested| == s.packet && (forall i :: 0 <= i < s.packet ==> s.requested[i] == i)
      && (s.status.Running? ==> exists i :: i in s.retries && Enabled(s, Data(i)))
  {
    EveryRunKeepsInv(file, payload, window, events);
    var s := Run(file, payload, Initial(window), events);
    if s.status.Running? {
      var i :| i in s.retries;
      assert Enabled(s, Data(i));
    }
  }

  // Segments received.
  function Received(s: State): int { s.packet - |s.retries| }

  /** Each arrival counts one more segment as received, and no more than the window or the file has can be. */
  lemma ArrivalIsProgress(file: seq<Byte>, payload: nat, window: nat, s: State, i: nat)
    requires 0 < |file| && 0 < payload && Inv(file, payload, window, s) && Enabled(s, Data(i))
    ensures Received(Step(file, payload, s, Data(i))) == Received(s) + 1
    ensures 0 <= Received(s) && (Received(s) <= window || Received(s) <= MaxSegment(|file|, payload) + 1)
  {
    hide Content, Concat, MaxSegment, ContentsOk, AskedOnce;
    OutstandingIsAsked(s);
    hide Partition;
    var s0 := s.(maxSegment := MaxSegment(|file|, payload), pending := s.pending[i := Content(file, payload, i)],
                 retries := s.retries - {i});
    ReceiveKeeps(file, payload, s, i, MaxSegment(|file|, payload));
    DrainKeeps(file, payload, s0);
    RemovalShrinks(s.retries, i);
    var s1 := Drain(s0);
    hide Drain;
    NextIsNew(file, payload, s1);
  }

  // The segments that arrive while the download is running and waits for them.
  function Arrivals(file: seq<Byte>, payload: nat, s: State, events: seq<Event>): nat
    requires 0 < |file| && 0 < payload
    decreases |events|
  {
    if |events| == 0 then 0
    else
      var e := events[0];
      if Enabled(s, e) then (if e.Data? then 1 else 0) + Arrivals(file, payload, Step(file, payload, s, e), events[1..])
      else Arrivals(file, payload, s, events[1..])
  }

  // A timeout or nack that does not end the download leaves what was received as it is.
  lemma OthersAreNoProgress(file: seq<Byte>, payload: nat, s: State, e: Event)
    requires 0 < |file| && 0 < payload && Enabled(s, e) && !e.Data?
    ensures var s' := Step(file, payload, s, e); s'.status.Aborted? || Received(s') == Received(s)
  {
    if e.Nack? {
      UpdateGrows(s.retries, e.segment, RETRIES);
    } else if 0 < s.retries[e.segment] {
      UpdateGrows(s.retries, e.segment, s.retries[e.segment] - 1);
    }
  }

  // While it runs something asked for has not arrived.
  lemma RunningIsShort(file: seq<Byte>, payload: nat, window: nat, s: State)
    requires 0 < |file| && 0 < payload && Inv(file, payload, window, s) && s.status.Running?
    ensures Received(s) < window || Received(s) < MaxSegment(|file|, payload) + 1
  {
    hide ContentsOk, MaxSegment, Partition, AskedOnce;
    assert |s.retries| != 0;
  }

  lemma {:induction false} ArrivalsAreReceived(file: seq<Byte>, payload: nat, window: nat, s: State, events: seq<Event>)
    requires 0 < |file| && 0 < payload && Inv(file, payload, window, s)
    ensures Run(file, payload, s, events).status.Running? ==>
      Received(Run(file, payload, s, events)) == Received(s) + Arrivals(file, payload, s, events)
    decreases |events|
  {
    hide Inv, Step, MaxSegment;
    if |events| > 0 {
      var e := events[0];
      if Enabled(s, e) {
        StepKeepsInv(file, payload, window, s, e);
        ArrivalsAreReceived(file, payload, window, Step(file, payload, s, e), events[1..]);
        if e.Data? {
          ArrivalIsProgress(file, payload, window, s, e.segment);
        } else {
          OthersAreNoProgress(file, payload, s, e);
          StoppedStays(file, payload, Step(file, payload, s, e), events[1..]);
        }
      } else {
        ArrivalsAreReceived(file, payload, window, s, events[1..]);
      }
    }
  }

  lemma {:induction false} StoppedStays(file: seq<Byte>, payload: nat, s: State, events: seq<Event>)
    requires 0 < |file| && 0 < payload
    ensures !s.status.Running? ==> Run(file, payload, s, events) == s
    decreases |events|
  {
    if |events| > 0 && !s.status.Running? {
      StoppedStays(file, payload, s, events[1..]);
    }
  }

  /** Whatever the order of arrival, the timeouts and the nacks: once as many segments it waited for have arrived as the
      window or the file has, whichever is more, a download that was not aborted is complete, and what it wrote is the
      file. */
  lemma EnoughArrivalsComplete(file: seq<Byte>, payload: nat, window: nat, events: seq<Event>)
    requires 0 < |file| && 0 < payload && 0 < window
    requires window <= Arrivals(file, payload, Initial(window), events)
    requires MaxSegment(|file|, payload) + 1 <= Arrivals(file, payload, Initial(window), events)
    ensures var s := Run(file, payload, Initial(window), events);
      s.status.Aborted? || (s.status.Completed? && s.out == file)
  {
    hide Inv, Step, MaxSegment;
    EveryRunKeepsInv(file, payload, window, []);
    EveryRunKeepsInv(file, payload, window, events);
    ArrivalsAreReceived(file, payload, window, Initial(window), events);
    NothingReceived(file, payload, window);
    WrittenIsTheFile(file, payload, window, events);
    var s := Run(file, payload, Initial(window), events);
    if s.status.Running? {
      RunningIsShort(file, payload, window, s);
    }
  }

  // ---- When a download is aborted ----

  // How often segment i has timed out since it was last refused.
  function Strikes(strikes: map<nat, nat>, i: nat): nat { if i in strikes then strikes[i] else 0 }

  function StrikesAfter(strikes: map<nat, nat>, e: Event): map<nat, nat> {
    match e
    case Data(_) => strikes
    case Timeout(i) => strikes[i := Strikes(strikes, i) + 1]
    case Nack(i, _) => strikes[i := 0]
  }

  // An event that is no reason to give up: a timeout of a segment that has timed out fewer than RETRIES times since it was
  // last refused, or a refusal that is not to end the download.
  predicate IsBorne(strikes: map<nat, nat>, e: Event) {
    match e
    case Data(_) => true
    case Timeout(i) => Strikes(strikes, i) < RETRIES
    case Nack(_, exitOnNack) => !exitOnNack
  }

  // Every event that concerns the download when it happens is borne.
  ghost predicate Bearable(file: seq<Byte>, payload: nat, s: State, strikes: map<nat, nat>, events: seq<Event>)
    requires 0 < |file| && 0 < payload
    decreases |events|
  {
    |events| > 0 ==>
      var e := events[0];
      if Enabled(s, e) then
        IsBorne(strikes, e) && Bearable(file, payload, Step(file, payload, s, e), StrikesAfter(strikes, e), events[1..])
      else Bearable(file, payload, s, strikes, events[1..])
  }

  // The repeats left are RETRIES less the strikes; segments not asked for yet have none.
  ghost predicate StrikesAgree(s: State, strikes: map<nat, nat>) {
    && (forall i :: i in s.retries ==> s.retries[i] + Strikes(strikes, i) == RETRIES)
    && (forall i: nat :: s.packet <= i ==> Strikes(strikes, i) == 0)
  }

  // What a step does to the Interests that are outstanding.
  lemma DataAsks(file: seq<Byte>, payload: nat, window: nat, s: State, i: nat)
    requires 0 < |file| && 0 < payload && Inv(file, payload, window, s) && Enabled(s, Data(i))
    ensures var s' := Step(file, payload, s, Data(i));
      && !s'.status.Aborted?
      && ((s'.retries == s.retries - {i} && s'.packet == s.packet)
          || (s'.retries == (s.retries - {i})[s.packet := RETRIES] && s'.packet == s.packet + 1))
  {
    hide Content, Concat, MaxSegment, AskedOnce;
    var s0 := s.(maxSegment := MaxSegment(|file|, payload), pending := s.pending[i := Content(file, payload, i)],
                 retries := s.retries - {i});
    ReceiveKeeps(file, payload, s, i, MaxSegment(|file|, payload));
    DrainKeeps(file, payload, s0);
  }

  lemma StepKeepsStrikes(file: seq<Byte>, payload: nat, window: nat, s: State, strikes: map<nat, nat>, e: Event)
    requires 0 < |file| && 0 < payload && Inv(file, payload, window, s) && Enabled(s, e) && StrikesAgree(s, strikes)
    ensures var s' := Step(file, payload, s, e);
      && (s'.status.Aborted? <==> !IsBorne(strikes, e))
      && (IsBorne(strikes, e) ==> StrikesAgree(s', StrikesAfter(strikes, e)))
  {
    hide Inv, Step;
    if e.Data? {
      DataAsks(file, payload, window, s, e.segment);
    } else {
      InRange(file, payload, window, s, e.segment);
      OtherKeepsStrikes(file, payload, s, strikes, e);
    }
  }

  lemma OtherKeepsStrikes(file: seq<Byte>, payload: nat, s: State, strikes: map<nat, nat>, e: Event)
    requires 0 < |file| && 0 < payload && Enabled(s, e) && StrikesAgree(s, strikes) && !e.Data? && e.segment < s.packet
    ensures var s' := Step(file, payload, s, e);
      && (s'.status.Aborted? <==> !IsBorne(strikes, e))
      && (IsBorne(strikes, e) ==> StrikesAgree(s', StrikesAfter(strikes, e)))
  {
    var s', after := Step(file, payload, s, e), StrikesAfter(strikes, e);
    forall i: nat | s'.packet <= i ensures Strikes(after, i) == 0 {
      assert Strikes(strikes, i) == 0;
    }
  }

  lemma InRange(file: seq<Byte>, payload: nat, window: nat, s: State, i: nat)
    requires 0 < |file| && 0 < payload && Inv(file, payload, window, s) && i in s.retries
    ensures i < s.packet
  {
    hide ContentsOk, AskedOnce;
  }

  lemma {:induction false} AbortsFrom(file: seq<Byte>, payload: nat, window: nat, s: State, strikes: map<nat, nat>,
                                      events: seq<Event>)
    requires 0 < |file| && 0 < payload && Inv(file, payload, window, s) && !s.status.Aborted? && StrikesAgree(s, strikes)
    ensures Run(file, payload, s, events).status.Aborted? <==> !Bearable(file, payload, s, strikes, events)
    decreases |events|
  {
    hide Inv, Step, Enabled, StrikesAgree, IsBorne, StrikesAfter;
    if |events| > 0 {
      var e := events[0];
      if Enabled(s, e) {
        StepKeepsInv(file, payload, window, s, e);
        StepKeepsStrikes(file, payload, window, s, strikes, e);
        var s' := Step(file, payload, s, e);
        if IsBorne(strikes, e) {
          AbortsFrom(file, payload, window, s', StrikesAfter(strikes, e), events[1..]);
        } else {
          StoppedStays(file, payload, s', events[1..]);
        }
      } else {
        AbortsFrom(file, payload, window, s, strikes, events[1..]);
      }
    }
  }

  lemma InitialStrikes(window: nat)
    ensures StrikesAgree(Initial(window), map[]) && Initial(window).status.Running?
  {
    OpenedStrikes(State(0, 0, 0, map[], [], map[], Running, []), window);
  }

  lemma {:induction false} OpenedStrikes(s: State, window: nat)
    requires StrikesAgree(s, map[]) && s.status.Running?
    ensures StrikesAgree(Opened(s, window), map[]) && Opened(s, window).status.Running?
    decreases window - s.packet
  {
    if s.packet < window {
      OpenedStrikes(Ask(s), window);
    }
  }

  /** Exactly when a download is aborted: when a segment it waits for is refused with the order to exit, or times out once
      more after it has timed out RETRIES times since it was last refused. */
  lemma AbortsIffUnbearable(file: seq<Byte>, payload: nat, window: nat, events: seq<Event>)
    requires 0 < |file| && 0 < payload && 0 < window
    ensures Run(file, payload, Initial(window), events).status.Aborted?
            <==> !Bearable(file, payload, Initial(window), map[], events)
  {
    EveryRunKeepsInv(file, payload, window, []);
    InitialStrikes(window);
    hide Inv, StrikesAgree, Initial;
    AbortsFrom(file, payload, window, Initial(window), map[], events);
  }

  // The same said of the events alone, whether they concern the download or not: no more than RETRIES timeouts of any
  // segment between two refusals of it, and no refusal with the order to exit.
  predicate Patient(strikes: map<nat, nat>, events: seq<Event>)
    decreases |events|
  {
    |events| > 0 ==> IsBorne(strikes, events[0]) && Patient(StrikesAfter(strikes, events[0]), events[1..])
  }

  ghost predicate Within(s: State, strikes: map<nat, nat>, more: map<nat, nat>) {
    forall i: nat :: i in s.retries || s.packet <= i ==> Strikes(strikes, i) <= Strikes(more, i)
  }

  lemma {:induction false} PatientIsBearable(file: seq<Byte>, payload: nat, window: nat, s: State, strikes: map<nat, nat>,
                                             more: map<nat, nat>, events: seq<Event>)
    requires 0 < |file| && 0 < payload && Inv(file, payload, window, s) && StrikesAgree(s, strikes)
    requires Patient(more, events) && Within(s, strikes, more)
    ensures Bearable(file, payload, s, strikes, events)
    decreases |events|
  {
    hide Inv, Step;
    if |events| > 0 {
      var e := events[0];
      if Enabled(s, e) {
        StepKeepsInv(file, payload, window, s, e);
        StepKeepsStrikes(file, payload, window, s, strikes, e);
        StepKeepsWithin(file, payload, window, s, strikes, more, e);
        PatientIsBearable(file, payload, window, Step(file, payload, s, e), StrikesAfter(strikes, e), StrikesAfter(more, e),
                          events[1..]);
      } else if s.status.Running? {
        PatientIsBearable(file, payload, window, s, strikes, StrikesAfter(more, e), events[1..]);
      } else {
        NothingConcernsIt(file, payload, s, strikes, events);
      }
    }
  }

  lemma StepKeepsWithin(file: seq<Byte>, payload: nat, window: nat, s: State, strikes: map<nat, nat>, more: map<nat, nat>,
                        e: Event)
    requires 0 < |file| && 0 < payload && Inv(file, payload, window, s) && Enabled(s, e) && Within(s, strikes, more)
    requires IsBorne(strikes, e)
    ensures Within(Step(file, payload, s, e), StrikesAfter(strikes, e), StrikesAfter(more, e))
  {
    hide Inv, OnData, Enabled;
    var s' := Step(file, payload, s, e);
    if e.Data? {
      DataAsks(file, payload, window, s, e.segment);
    } else {
      assert s'.packet == s.packet && s'.retries.Keys <= s.retries.Keys by { OtherAsksNothing(file, payload, s, e); }
    }
    hide Step;
    forall i: nat | i in s'.retries || s'.packet <= i
      ensures Strikes(StrikesAfter(strikes, e), i) <= Strikes(StrikesAfter(more, e), i)
    {
      assert i in s.retries || s.packet <= i;
      assert Strikes(strikes, i) <= Strikes(more, i);
    }
  }

  lemma OtherAsksNothing(file: seq<Byte>, payload: nat, s: State, e: Event)
    requires 0 < |file| && 0 < payload && Enabled(s, e) && !e.Data?
    ensures Step(file, payload, s, e).packet == s.packet && Step(file, payload, s, e).retries.Keys <= s.retries.Keys
  {}

  lemma {:induction false} NothingConcernsIt(file: seq<Byte>, payload: nat, s: State, strikes: map<nat, nat>,
                                             events: seq<Event>)
    requires 0 < |file| && 0 < payload && !s.status.Running?
    ensures Bearable(file, payload, s, strikes, events)
    decreases |events|
  {
    if |events| > 0 {
      NothingConcernsIt(file, payload, s, strikes, events[1..]);
    }
  }

  /** Lost packets are asked for again: with no more than RETRIES timeouts of any segment between two refusals of it, and no
      refusal with the order to exit, a download is never aborted, in whatever order things happen; and once as many
      segments it waited for have arrived as the window or the file has, whichever is more, it is complete and what it wrote
      is the file. */
  lemma PatientDownloadCompletes(file: seq<Byte>, payload: nat, window: nat, events: seq<Event>)
    requires 0 < |file| && 0 < payload && 0 < window && Patient(map[], events)
    ensures var s := Run(file, payload, Initial(window), events);
      && !s.status.Aborted?
      && (window <= Arrivals(file, payload, Initial(window), events)
          && MaxSegment(|file|, payload) + 1 <= Arrivals(file, payload, Initial(window), events) ==>
            s.status.Completed? && s.out == file)
  {
    EveryRunKeepsInv(file, payload, window, []);
    InitialStrikes(window);
    hide Inv, StrikesAgree, Initial, Arrivals, MaxSegment;
    PatientIsBearable(file, payload, window, Initial(window), map[], map[], events);
    AbortsIffUnbearable(file, payload, window, events);
    if window <= Arrivals(file, payload, Initial(window), events)
       && MaxSegment(|file|, payload) + 1 <= Arrivals(file, payload, Initial(window), events) {
      EnoughArrivalsComplete(file, payload, window, events);
    }
  }

  // ---- The window is kept full ----

  // While segments are left to ask for, a whole window is outstanding.
  ghost predicate WindowFull(file: seq<Byte>, payload: nat, window: nat, s: State)
    requires 0 < |file| && 0 < payload
  {
    s.status.Running? && s.packet <= MaxSegment(|file|, payload) ==> |s.retries| == window
  }

  // An arrival that does not end the download is answered by the next segment being asked for, if there is one.
  lemma DataAsksNext(file: seq<Byte>, payload: nat, window: nat, s: State, i: nat)
    requires 0 < |file| && 0 < payload && Inv(file, payload, window, s) && Enabled(s, Data(i))
    ensures var s' := Step(file, payload, s, Data(i));
      s'.status.Running? && s.packet <= MaxSegment(|file|, payload) ==>
        s.packet !in s.retries && s'.retries == (s.retries - {i})[s.packet := RETRIES] && s'.packet == s.packet + 1
  {
    hide Content, Concat, MaxSegment, AskedOnce;
    var s0 := s.(maxSegment := MaxSegment(|file|, payload), pending := s.pending[i := Content(file, payload, i)],
                 retries := s.retries - {i});
    ReceiveKeeps(file, payload, s, i, MaxSegment(|file|, payload));
    DrainKeeps(file, payload, s0);
  }

  lemma StepKeepsWindowFull(file: seq<Byte>, payload: nat, window: nat, s: State, e: Event)
    requires 0 < |file| && 0 < payload && Inv(file, payload, window, s) && Enabled(s, e)
    requires WindowFull(file, payload, window, s)
    ensures WindowFull(file, payload, window, Step(file, payload, s, e))
  {
    hide Inv, OnData, MaxSegment;
    if e.Data? {
      DataAsks(file, payload, window, s, e.segment);
      DataAsksNext(file, payload, window, s, e.segment);
      RemovalShrinks(s.retries, e.segment);
      UpdateGrows(s.retries - {e.segment}, s.packet, RETRIES);
    } else {
      UpdateGrows(s.retries, e.segment, if e.Timeout? && 0 < s.retries[e.segment] then s.retries[e.segment] - 1 else RETRIES);
    }
  }

  lemma {:induction false} RunKeepsWindowFull(file: seq<Byte>, payload: nat, window: nat, s: State, events: seq<Event>)
    requires 0 < |file| && 0 < payload && Inv(file, payload, window, s) && WindowFull(file, payload, window, s)
    ensures WindowFull(file, payload, window, Run(file, payload, s, events))
    decreases |events|
  {
    hide Inv, Step, Enabled, WindowFull;
    if |events| > 0 {
      if Enabled(s, events[0]) {
        StepKeepsInv(file, payload, window, s, events[0]);
        StepKeepsWindowFull(file, payload, window, s, events[0]);
        RunKeepsWindowFull(file, payload, window, Step(file, payload, s, events[0]), events[1..]);
      } else {
        RunKeepsWindowFull(file, payload, window, s, events[1..]);
      }
    }
  }

  /** A running download that has segments left to ask for has exactly a window of Interests outstanding, in every run. */
  lemma WindowIsFull(file: seq<Byte>, payload: nat, window: nat, events: seq<Event>)
    requires 0 < |file| && 0 < payload && 0 < window
    ensures var s := Run(file, payload, Initial(window), events);
      s.status.Running? && s.packet <= MaxSegment(|file|, payload) ==> |s.retries| == window
  {
    EveryRunKeepsInv(file, payload, window, []);
    OpenedInv(file, payload, window, State(0, 0, 0, map[], [], map[], Running, []));
    hide Inv, MaxSegment;
    RunKeepsWindowFull(file, payload, window, Initial(window), events);
  }

  lemma NothingReceived(file: seq<Byte>, payload: nat, window: nat)
    requires 0 < |file| && 0 < payload && 0 < window
    ensures Received(Initial(window)) == 0
  {
    hide Content, MaxSegment;
    OpenedInv(file, payload, window, State(0, 0, 0, map[], [], map[], Running, []));
  }

  lemma OutstandingIsAsked(s: State)
    requires Partition(s)
    ensures |s.retries| <= s.packet
  {
    OutstandingBounded(s.retries, s.packet);
  }

  lemma NextIsNew(file: seq<Byte>, payload: nat, s: State)
    requires Partition(s)
    ensures |Ask(s).retries| == |s.retries| + 1
  {
    UpdateGrows(s.retries, s.packet, RETRIES);
  }

  lemma {:induction false} OutstandingBounded(m: map<nat, nat>, n: nat)
    requires forall i :: i in m ==> i < n
    ensures |m| <= n
  {
    if n == 0 {
      assert m == map[];
    } else if n - 1 in m {
      RemovalShrinks(m, n - 1);
      OutstandingBounded(m - {n - 1}, n - 1);
    } else {
      OutstandingBounded(m, n - 1);
    }
  }

  // ---- The same, in place ----

  // Where events lead.
  function Outcome(server: seq<Byte>, payload: nat, s: State, events: seq<Event>): State
    requires 0 < |server| && 0 < payload
  {
    Run(server, payload, s, events)
  }

  class Client {
    const window: nat
    var currentPacket: nat
    var currentSegment: nat
    var maxSegment: nat
    var pendingSegments: map<nat, seq<Byte>>
    var file: seq<Byte>
    var outstanding: map<nat, nat>
    var status: Status
    ghost var requested: seq<nat>

    ghost function Abs(): State
      reads this
    {
      State(currentPacket, currentSegment, maxSegment, pendingSegments, file, outstanding, status, requested)
    }

    constructor (window: nat)
      ensures this.window == window && Abs() == State(0, 0, 0, map[], [], map[], Running, [])
    {
      this.window := window;
      currentPacket, currentSegment, maxSegment := 0, 0, 0;
      pendingSegments, file, outstanding, status, requested := map[], [], map[], Running, [];
    }

    method Run()
      requires Abs() == State(0, 0, 0, map[], [], map[], Running, [])
      modifies this
      ensures Abs() == Initial(window)
    {
      while currentPacket < window
        invariant Opened(Abs(), window) == Initial(window)
        decreases window - currentPacket
      {
        ExpressInterest(currentPacket);
        currentPacket := currentPacket + 1;
      }
    }

    method ExpressInterest(segment: nat)
      modifies `outstanding, `requested
      ensures outstanding == old(outstanding)[segment := RETRIES] && requested == old(requested) + [segment]
    {
      outstanding := outstanding[segment := RETRIES];
      requested := requested + [segment];
    }

    method OnDataFile(segment: nat, content: seq<Byte>, finalBlock: nat)
      modifies this
      ensures Abs() == OnData(old(Abs()), segment, content, finalBlock)
    {
      maxSegment := finalBlock;
      outstanding := outstanding - {segment};
      pendingSegments := pendingSegments[segment := content];
      ghost var s0 := Abs();
      while currentSegment in pendingSegments
        invariant Drain(Abs()) == Drain(s0)
        decreases pendingSegments.Keys
      {
        file := file + pendingSegments[currentSegment];
        pendingSegments := pendingSegments - {currentSegment};
        currentSegment := currentSegment + 1;
      }
      if currentSegment > maxSegment {
        status := Completed;
        return;
      }
      if currentPacket <= maxSegment {
        ExpressInterest(currentPacket);
        currentPacket := currentPacket + 1;
      }
    }

    method OnTimeoutFile(segment: nat)
      requires segment in outstanding && status.Running?
      modifies this
      ensures forall server: seq<Byte>, payload: nat :: 0 < |server| && 0 < payload ==>
                Abs() == Step(server, payload, old(Abs()), Timeout(segment))
    {
      var n := outstanding[segment];
      if n > 0 {
        outstanding := outstanding[segment := n - 1];
      } else {
        status := Aborted;
      }
    }

    method OnNack(segment: nat, exitOnNack: bool)
      requires segment in outstanding && status.Running?
      modifies this
      ensures forall server: seq<Byte>, payload: nat :: 0 < |server| && 0 < payload ==>
                Abs() == Step(server, payload, old(Abs()), Nack(segment, exitOnNack))
    {
      if exitOnNack {
        status := Aborted;
      } else {
        outstanding := outstanding[segment := RETRIES];
      }
    }

    /** The events that arrive from a server that holds `server`; those of segments nobody waits for are ignored. */
    method Follow(server: seq<Byte>, payload: nat, events: seq<Event>)
      requires 0 < |server| && 0 < payload
      modifies this
      ensures Abs() == Outcome(server, payload, old(Abs()), events)
      decreases |events|
    {
      if |events| > 0 {
        if status.Running? && events[0].segment in outstanding {
          match events[0] {
            case Data(i) => OnDataFile(i, Content(server, payload, i), MaxSegment(|server|, payload));
            case Timeout(i) => OnTimeoutFile(i);
            case Nack(i, exitOnNack) => OnNack(i, exitOnNack);
          }
        }
        Follow(server, payload, events[1..]);
      }
    }
  }

  /** A download from its constructor through any events: what was written is the beginning of the file, and all of it if
      the download completed. */
  method FollowFromStart(window: nat, server: seq<Byte>, payload: nat, events: seq<Event>) returns (client: Client)
    requires 0 < |server| && 0 < payload && 0 < window
    ensures fresh(client) && client.Abs() == Run(server, payload, Initial(window), events)
    ensures client.file <= server && (client.status.Completed? ==> client.file == server)
  {
    client := new Client(window);
    client.Run();
    WrittenIsTheFile(server, payload, window, events);
    client.Follow(server, payload, events);
  }
}
