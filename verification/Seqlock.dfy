/**
 The telemetry seqlock of include/ocudu_gpu_channel/runtime_control.h:198-228, one word at a
 time: one writer publishes snapshots, one reader copies them.
 */
module Seqlock {

  /** `words` words make a snapshot, which is `blank` when default-constructed; the reader gives up
      after `retries` attempts. */
  datatype Config = Config(words: nat, retries: nat, blank: seq<real>)

  datatype Writer =
    | Idle
    | Loaded(pre: nat, snap: seq<real>)
    | Writing(pre: nat, snap: seq<real>, i: nat)

  /** What an observer of both threads notes of one attempt: whether a publication was under way at
      its first load, and how many had begun by its first and by its second load. */
  datatype Attempt = Attempt(open: bool, before: nat, after: nat)
  {
    predicate Disturbed() {
      open || after > before
    }
  }

  /** ... and of one read: the last publication completed when it began, whether another was under
      way then and how many had begun, and the attempts it has finished. */
  datatype Log = Log(from: nat, open: bool, begun: nat, attempts: seq<Attempt>)

  /** `before` is how many publications had begun at the attempt's first load. */
  datatype Reader =
    | Away
    | LoadPre(log: Log)
    | Copy(log: Log, before: nat, pre: nat, i: nat)
    | LoadPost(log: Log, before: nat, pre: nat)

  /** One finished read.  `index` is the publication an accepted copy stands for, `until` the last
      one completed and `begun` how many had begun when the read ended. */
  datatype Result =
    | Accepted(copy: seq<real>, log: Log, begun: nat, index: nat, until: nat)
    | Fallback(copy: seq<real>, log: Log, begun: nat)

  /** `published[0]` is the initial snapshot; `seqno` is the lock word. */
  datatype State = State(seqno: nat, words: seq<real>, writer: Writer, published: seq<seq<real>>,
                         copy: seq<real>, reader: Reader, results: seq<Result>)

  datatype Action = Publish(snap: seq<real>) | Write | Read

  predicate Shape(c: Config, s: State) {
    && |s.words| == |s.copy| == |c.blank| == c.words > 0 && |s.published| > 0
    && (s.writer.Loaded? || s.writer.Writing? ==> |s.writer.snap| == c.words)
    && (s.writer.Writing? ==> s.writer.i <= c.words)
    && (s.reader.Copy? ==> s.reader.i < c.words)
  }

  predicate Initial(c: Config, s: State) {
    && Shape(c, s) && s.seqno == 0 && s.writer == Idle && s.published == [s.words] && s.reader == Away && s.results == []
  }

  predicate Enabled(c: Config, s: State, a: Action) {
    match a
    case Publish(snap) => s.writer == Idle && |snap| == c.words
    case Write => s.writer != Idle
    case Read => true
  }

  /** Load the lock word, mark it odd, copy word by word, mark it even. */
  function WriterStep(c: Config, s: State): (s': State)
    requires Shape(c, s) && s.writer != Idle
    ensures Shape(c, s')
  {
    match s.writer
    case Loaded(pre, snap) => s.(seqno := pre + 1, writer := Writing(pre, snap, 0))
    case Writing(pre, snap, i) =>
      if i < c.words then s.(words := s.words[i := snap[i]], writer := Writing(pre, snap, i + 1))
      else s.(seqno := pre + 2, writer := Idle, published := s.published + [snap])
  }

  /** Publications whose writer has marked the lock word odd. */
  function Begun(s: State): nat
    requires s.published != []
  {
    |s.published| - 1 + if s.writer.Writing? then 1 else 0
  }

  function GiveUp(s: State, log: Log): State
    requires s.published != []
  {
    s.(reader := Away, results := s.results + [Fallback(s.copy, log, Begun(s))])
  }

  /** The next attempt, or the last copy whatever it is. */
  function Retry(c: Config, s: State, log: Log, a: Attempt): State
    requires s.published != []
  {
    var log' := log.(attempts := log.attempts + [a]);
    if |log'.attempts| < c.retries then s.(reader := LoadPre(log')) else GiveUp(s, log')
  }

  function ReaderStep(c: Config, s: State): (s': State)
    requires Shape(c, s)
    ensures Shape(c, s')
  {
    match s.reader
    case Away =>
      var log := Log(|s.published| - 1, s.writer.Writing?, Begun(s), []);
      if c.retries == 0 then GiveUp(s.(copy := c.blank), log) else s.(copy := c.blank, reader := LoadPre(log))
    case LoadPre(log) =>
      if s.seqno % 2 == 1 then Retry(c, s, log, Attempt(s.writer.Writing?, Begun(s), Begun(s)))
      else s.(reader := Copy(log, Begun(s), s.seqno, 0))
    case Copy(log, before, pre, i) =>
      s.(copy := s.copy[i := s.words[i]],
         reader := if i + 1 < c.words then Copy(log, before, pre, i + 1) else LoadPost(log, before, pre))
    case LoadPost(log, before, pre) =>
      var a := Attempt(false, before, Begun(s));
      if s.seqno == pre then
        var done := log.(attempts := log.attempts + [a]);
        s.(reader := Away, results := s.results + [Accepted(s.copy, done, Begun(s), pre / 2, |s.published| - 1)])
      else Retry(c, s, log, a)
  }

  function Next(c: Config, s: State, a: Action): (s': State)
    requires Shape(c, s) && Enabled(c, s, a)
    ensures Shape(c, s')
  {
    match a
    case Publish(snap) => s.(writer := Loaded(s.seqno, snap))
    case Write => WriterStep(c, s)
    case Read => ReaderStep(c, s)
  }

  predicate CanRun(c: Config, s: State, acts: seq<Action>)
    requires Shape(c, s)
    decreases |acts|, 0
  {
    acts == [] || (CanRun(c, s, acts[..|acts| - 1]) && Enabled(c, Run(c, s, acts[..|acts| - 1]), acts[|acts| - 1]))
  }

  function Run(c: Config, s: State, acts: seq<Action>): (s': State)
    requires Shape(c, s) && CanRun(c, s, acts)
    ensures Shape(c, s')
    decreases |acts|, 1
  {
    if acts == [] then s else Next(c, Run(c, s, acts[..|acts| - 1]), acts[|acts| - 1])
  }

  // ---- What every step keeps ---------------------------------------------------------------------

  predicate WriterOk(c: Config, s: State)
    requires Shape(c, s)
  {
    match s.writer
    case Idle => s.seqno == 2 * (|s.published| - 1) && s.words == s.published[|s.published| - 1]
    case Loaded(pre, _) => pre == s.seqno == 2 * (|s.published| - 1) && s.words == s.published[|s.published| - 1]
    case Writing(pre, snap, i) => pre + 1 == s.seqno && pre == 2 * (|s.published| - 1) && s.words[..i] == snap[..i]
  }

  /** While the lock word still reads as it did, what has been copied is the publication it
      stands for. */
  predicate ReaderOk(c: Config, s: State)
    requires Shape(c, s)
  {
    match s.reader
    case Away => true
    case LoadPre(log) => log.from < |s.published|
    case Copy(log, _, pre, i) => Copying(s, log.from, pre) && (s.seqno == pre ==> s.copy[..i] == s.published[pre / 2][..i])
    case LoadPost(log, _, pre) => Copying(s, log.from, pre) && (s.seqno == pre ==> s.copy == s.published[pre / 2])
  }

  predicate Copying(s: State, from: nat, pre: nat) {
    pre % 2 == 0 && pre <= s.seqno && from <= pre / 2 < |s.published| && |s.published[pre / 2]| == |s.copy|
  }

  predicate ResultOk(c: Config, s: State, r: Result) {
    r.Accepted? ==> r.log.from <= r.index <= r.until < |s.published| && r.copy == s.published[r.index]
  }

  predicate Inv(c: Config, s: State) {
    && Shape(c, s) && WriterOk(c, s) && ReaderOk(c, s)
    && (forall k :: 0 <= k < |s.published| ==> |s.published[k]| == c.words)
    && ResultsOk(c, s)
  }

  /** Reads follow one another, and the one under way began after all the others ended. */
  predicate ResultsOk(c: Config, s: State) {
    && (forall k :: 0 <= k < |s.results| ==> ResultOk(c, s, s.results[k]))
    && (forall j, k :: 0 <= j < k < |s.results| && s.results[j].Accepted? && s.results[k].Accepted? ==>
          s.results[j].until <= s.results[k].log.from)
    && forall k :: 0 <= k < |s.results| && s.results[k].Accepted? && !s.reader.Away? ==> s.results[k].until <= s.reader.log.from
  }

  lemma WriteKeeps(c: Config, s: State)
    requires Inv(c, s) && s.writer != Idle
    ensures Inv(c, WriterStep(c, s))
  {
    var s' := WriterStep(c, s);
    if s.writer.Writing? {
      var i, snap := s.writer.i, s.writer.snap;
      if i < c.words {
        assert s'.words[..i + 1] == s.words[..i] + [snap[i]] && snap[..i + 1] == snap[..i] + [snap[i]];
      } else {
        assert s.words[..i] == s.words && snap[..i] == snap;
      }
    }
  }

  lemma CopyKeeps(c: Config, s: State)
    requires Inv(c, s) && s.reader.Copy?
    ensures Inv(c, ReaderStep(c, s))
  {
    if s.seqno == s.reader.pre {
      EvenIsQuiet(c, s);
      Grow(s.copy, s.words, s.published[s.reader.pre / 2], s.reader.i);
    }
    CopyResults(c, s);
    hide ResultsOk, WriterOk;
  }

  lemma CopyResults(c: Config, s: State)
    requires ResultsOk(c, s) && s.reader.Copy? && Shape(c, s)
    ensures ResultsOk(c, ReaderStep(c, s)) && (WriterOk(c, s) ==> WriterOk(c, ReaderStep(c, s)))
  {
  }

  lemma Grow(copy: seq<real>, words: seq<real>, p: seq<real>, i: nat)
    requires |copy| == |words| == |p| && i < |p| && copy[..i] == p[..i] && words == p
    ensures copy[i := words[i]][..i + 1] == p[..i + 1] && (i + 1 == |p| ==> copy[i := words[i]] == p)
  {
    var grown := copy[i := words[i]];
    assert grown[..i + 1] == copy[..i] + [p[i]] && p[..i + 1] == p[..i] + [p[i]];
    assert i + 1 == |p| ==> grown[..i + 1] == grown && p[..i + 1] == p;
  }

  lemma FallbackKeeps(c: Config, s: State, log: Log)
    requires ResultsOk(c, s) && s.published != []
    ensures ResultsOk(c, GiveUp(s, log))
  {
  }

  lemma AcceptKeeps(c: Config, s: State, r: Result)
    requires ResultsOk(c, s) && ResultOk(c, s, r) && r.Accepted? && !s.reader.Away? && r.log.from == s.reader.log.from
    ensures ResultsOk(c, s.(reader := Away, results := s.results + [r]))
  {
  }

  lemma RetryKeeps(c: Config, s: State, log: Log, a: Attempt)
    requires ResultsOk(c, s) && s.published != [] && !s.reader.Away? && s.reader.log == log
    ensures ResultsOk(c, Retry(c, s, log, a))
  {
    FallbackKeeps(c, s, log.(attempts := log.attempts + [a]));
  }

  lemma PostKeeps(c: Config, s: State)
    requires Inv(c, s) && s.reader.LoadPost?
    ensures Inv(c, ReaderStep(c, s))
  {
    EvenIsQuiet(c, s);
    var log, a := s.reader.log, Attempt(false, s.reader.before, Begun(s));
    if s.seqno == s.reader.pre {
      var done := log.(attempts := log.attempts + [a]);
      AcceptKeeps(c, s, Accepted(s.copy, done, Begun(s), s.reader.pre / 2, |s.published| - 1));
    } else {
      RetryKeeps(c, s, log, a);
    }
  }

  lemma PreKeeps(c: Config, s: State)
    requires Inv(c, s) && (s.reader.LoadPre? || s.reader.Away?)
    ensures Inv(c, ReaderStep(c, s))
  {
    EvenIsQuiet(c, s);
    if s.reader.Away? {
      FallbackKeeps(c, s.(copy := c.blank), Log(|s.published| - 1, s.writer.Writing?, Begun(s), []));
    } else {
      RetryKeeps(c, s, s.reader.log, Attempt(s.writer.Writing?, Begun(s), Begun(s)));
    }
  }

  lemma ReadKeeps(c: Config, s: State)
    requires Inv(c, s)
    ensures Inv(c, ReaderStep(c, s))
  {
    if s.reader.Copy? {
      CopyKeeps(c, s);
    } else if s.reader.LoadPost? {
      PostKeeps(c, s);
    } else {
      PreKeeps(c, s);
    }
  }

  /** An even lock word names the publication the words hold. */
  lemma EvenIsQuiet(c: Config, s: State)
    requires Shape(c, s) && WriterOk(c, s)
    ensures s.seqno % 2 == 0 <==> !s.writer.Writing?
    ensures s.seqno % 2 == 0 ==> s.seqno / 2 == |s.published| - 1 && s.words == s.published[s.seqno / 2]
  {
  }

  lemma {:induction false} RunKeepsInv(c: Config, s: State, acts: seq<Action>)
    requires Inv(c, s) && CanRun(c, s, acts)
    ensures Inv(c, Run(c, s, acts))
    decreases |acts|
  {
    if acts != [] {
      var before, last := Run(c, s, acts[..|acts| - 1]), acts[|acts| - 1];
      RunKeepsInv(c, s, acts[..|acts| - 1]);
      if last.Write? {
        WriteKeeps(c, before);
      } else if last.Read? {
        ReadKeeps(c, before);
      }
    }
  }

  /** Every accepted copy is one whole publication, current at some moment of the read: not older
      than the last one completed when the read began, not newer than when it ended. */
  lemma AcceptedIsPublished(c: Config, s0: State, acts: seq<Action>, k: nat)
    requires Initial(c, s0) && CanRun(c, s0, acts)
    requires k < |Run(c, s0, acts).results| && Run(c, s0, acts).results[k].Accepted?
    ensures var s := Run(c, s0, acts);
      var r := s.results[k];
      r.log.from <= r.index <= r.until < |s.published| && r.copy == s.published[r.index]
  {
    RunKeepsInv(c, s0, acts);
    var s := Run(c, s0, acts);
    assert ResultOk(c, s, s.results[k]);
  }

  /** Accepted reads never go back to an older publication. */
  lemma AcceptedNeverGoesBack(c: Config, s0: State, acts: seq<Action>, j: nat, k: nat)
    requires Initial(c, s0) && CanRun(c, s0, acts) && j < k < |Run(c, s0, acts).results|
    requires Run(c, s0, acts).results[j].Accepted? && Run(c, s0, acts).results[k].Accepted?
    ensures Run(c, s0, acts).results[j].index <= Run(c, s0, acts).results[k].index
  {
    RunKeepsInv(c, s0, acts);
    var s := Run(c, s0, acts);
    assert ResultOk(c, s, s.results[j]) && ResultOk(c, s, s.results[k]);
  }

  // ---- When a read falls back --------------------------------------------------------------------

  /** So far every attempt of the read was disturbed; and if no publication was under way at its
      start and none has begun since, there has been no failed attempt and nothing has changed. */
  predicate LogOk(c: Config, s: State, log: Log)
    requires s.published != []
  {
    && |log.attempts| < c.retries && AllDisturbed(log.attempts) && log.begun <= Begun(s)
    && (!log.open && log.begun == Begun(s) ==> log.attempts == [] && !s.writer.Writing? && log.from == |s.published| - 1)
  }

  predicate AllDisturbed(attempts: seq<Attempt>) {
    forall k :: 0 <= k < |attempts| ==> attempts[k].Disturbed()
  }

  predicate Observed(c: Config, s: State)
    requires s.published != []
  {
    match s.reader
    case Away => true
    case LoadPre(log) => LogOk(c, s, log)
    case Copy(log, before, pre, _) => LogOk(c, s, log) && pre % 2 == 0 && pre == 2 * before && log.begun <= before
    case LoadPost(log, before, pre) => LogOk(c, s, log) && pre % 2 == 0 && pre == 2 * before && log.begun <= before
  }

  /** What a finished read's log says of its outcome. */
  predicate Explained(c: Config, r: Result) {
    && (r.Fallback? ==> |r.log.attempts| == c.retries && AllDisturbed(r.log.attempts))
    && (r.Accepted? ==>
          && 0 < |r.log.attempts| <= c.retries && !r.log.attempts[|r.log.attempts| - 1].Disturbed()
          && AllDisturbed(r.log.attempts[..|r.log.attempts| - 1]))
    && (!r.log.open && r.begun == r.log.begun && c.retries > 0 ==> r.Accepted? && r.index == r.log.from)
  }

  predicate AllExplained(c: Config, s: State) {
    forall k :: 0 <= k < |s.results| ==> Explained(c, s.results[k])
  }

  lemma WriteObserved(c: Config, s: State)
    requires Inv(c, s) && Observed(c, s) && s.writer != Idle
    ensures Observed(c, WriterStep(c, s)) && WriterStep(c, s).results == s.results
  {
    hide Inv, ReaderOk, WriterOk;
  }

  /** The lock word counts the publications begun. */
  lemma WordCounts(c: Config, s: State)
    requires Inv(c, s)
    ensures Shape(c, s) && (s.seqno % 2 == 1 <==> s.writer.Writing?) && Begun(s) == (s.seqno + 1) / 2
    ensures s.reader.LoadPost? ==> s.reader.pre <= s.seqno
  {
  }

  lemma RetryObserved(c: Config, s: State, log: Log, a: Attempt)
    requires s.published != [] && LogOk(c, s, log) && a.Disturbed() && AllExplained(c, s)
    requires !(!log.open && log.begun == Begun(s))
    ensures Observed(c, Retry(c, s, log, a)) && AllExplained(c, Retry(c, s, log, a))
  {
  }

  lemma ReadObserved(c: Config, s: State)
    requires Inv(c, s) && Observed(c, s) && AllExplained(c, s)
    ensures Observed(c, ReaderStep(c, s)) && AllExplained(c, ReaderStep(c, s))
  {
    hide Inv, Retry, ReaderOk, WriterOk;
    WordCounts(c, s);
    match s.reader
    case LoadPre(log) =>
      if s.seqno % 2 == 1 {
        RetryObserved(c, s, log, Attempt(s.writer.Writing?, Begun(s), Begun(s)));
      }
    case LoadPost(log, before, pre) =>
      if s.seqno == pre {
        AcceptObserved(c, s);
      } else {
        RetryObserved(c, s, log, Attempt(false, before, Begun(s)));
      }
    case Away =>
    case Copy(_, _, _, _) =>
  }

  lemma AcceptObserved(c: Config, s: State)
    requires Shape(c, s) && Observed(c, s) && AllExplained(c, s) && s.reader.LoadPost? && s.seqno == s.reader.pre
    requires (s.seqno % 2 == 1 <==> s.writer.Writing?) && Begun(s) == (s.seqno + 1) / 2
    ensures Observed(c, ReaderStep(c, s)) && AllExplained(c, ReaderStep(c, s))
  {
    var LoadPost(log, before, pre) := s.reader;
    var a := Attempt(false, before, Begun(s));
    assert (log.attempts + [a])[..|log.attempts|] == log.attempts;
    assert Explained(c, Accepted(s.copy, log.(attempts := log.attempts + [a]), Begun(s), pre / 2, |s.published| - 1));
  }

  lemma {:induction false} RunObserved(c: Config, s0: State, acts: seq<Action>)
    requires Initial(c, s0) && CanRun(c, s0, acts)
    ensures Observed(c, Run(c, s0, acts)) && AllExplained(c, Run(c, s0, acts))
    decreases |acts|
  {
    if acts != [] {
      var rest, last := acts[..|acts| - 1], acts[|acts| - 1];
      RunObserved(c, s0, rest);
      RunKeepsInv(c, s0, rest);
      if last.Write? {
        WriteObserved(c, Run(c, s0, rest));
      } else if last.Read? {
        ReadObserved(c, Run(c, s0, rest));
      }
    }
  }

  /** A read hands back an unchecked copy precisely when every attempt found a publication under
      way at its first load or saw one begin before its second; it has then used all its attempts. */
  lemma FallbackExactly(c: Config, s0: State, acts: seq<Action>, k: nat)
    requires Initial(c, s0) && CanRun(c, s0, acts) && k < |Run(c, s0, acts).results|
    ensures var r := Run(c, s0, acts).results[k];
      (r.Fallback? <==> AllDisturbed(r.log.attempts)) && (r.Fallback? ==> |r.log.attempts| == c.retries)
  {
    RunObserved(c, s0, acts);
    var r := Run(c, s0, acts).results[k];
    assert Explained(c, r);
  }

  /** No publication under way when the read starts and none beginning before it ends: the copy is
      the last publication, whole. */
  lemma QuietReadIsWhole(c: Config, s0: State, acts: seq<Action>, k: nat)
    requires Initial(c, s0) && CanRun(c, s0, acts) && k < |Run(c, s0, acts).results| && c.retries > 0
    requires var r := Run(c, s0, acts).results[k]; !r.log.open && r.begun == r.log.begun
    ensures var s := Run(c, s0, acts);
      var r := s.results[k];
      r.Accepted? && r.log.from < |s.published| && r.copy == s.published[r.log.from]
  {
    RunObserved(c, s0, acts);
    RunKeepsInv(c, s0, acts);
    var s := Run(c, s0, acts);
    assert Explained(c, s.results[k]) && ResultOk(c, s, s.results[k]);
  }

  // ---- A torn copy ----------------------------------------------------------------------------------

  /** `acts` leads from `s0` to `s`. */
  predicate Leads(c: Config, s0: State, acts: seq<Action>, s: State) {
    Shape(c, s0) && CanRun(c, s0, acts) && Run(c, s0, acts) == s
  }

  lemma OneMore(c: Config, s0: State, acts: seq<Action>, s: State, a: Action)
    requires Leads(c, s0, acts, s) && Enabled(c, s, a)
    ensures Shape(c, s) && Leads(c, s0, acts + [a], Next(c, s, a))
  {
    assert (acts + [a])[..|acts|] == acts;
  }

  const FIRST := [0.0, 0.0]
  const SECOND := [1.0, 1.0]
  const UNDISTURBED := Log(0, false, 0, [])

  lemma HalfCopied(c: Config, s0: State) returns (acts: seq<Action>)
    requires c == Config(2, 1, FIRST) && s0 == State(0, FIRST, Idle, [FIRST], FIRST, Away, [])
    ensures Leads(c, s0, acts, s0.(reader := Copy(UNDISTURBED, 0, 0, 1)))
  {
    OneMore(c, s0, [], s0, Read);
    OneMore(c, s0, [] + [Read], s0.(reader := LoadPre(UNDISTURBED)), Read);
    OneMore(c, s0, [] + [Read] + [Read], s0.(reader := Copy(UNDISTURBED, 0, 0, 0)), Read);
    acts := [] + [Read] + [Read] + [Read];
    assert FIRST[0 := FIRST[0]] == FIRST;
  }

  lemma Overwritten(c: Config, s0: State, acts: seq<Action>, r: Reader) returns (acts': seq<Action>)
    requires c == Config(2, 1, FIRST) && Leads(c, s0, acts, State(0, FIRST, Idle, [FIRST], FIRST, r, []))
    ensures Leads(c, s0, acts', State(2, SECOND, Idle, [FIRST, SECOND], FIRST, r, []))
  {
    var s := State(0, FIRST, Idle, [FIRST], FIRST, r, []);
    OneMore(c, s0, acts, s, Publish(SECOND));
    var a1, s1 := acts + [Publish(SECOND)], s.(writer := Loaded(0, SECOND));
    OneMore(c, s0, a1, s1, Write);
    var a2, s2 := a1 + [Write], s.(seqno := 1, writer := Writing(0, SECOND, 0));
    OneMore(c, s0, a2, s2, Write);
    var a3, s3 := a2 + [Write], s2.(words := [1.0, 0.0], writer := Writing(0, SECOND, 1));
    OneMore(c, s0, a3, s3, Write);
    var a4, s4 := a3 + [Write], s2.(words := SECOND, writer := Writing(0, SECOND, 2));
    assert [1.0, 0.0][1 := 1.0] == SECOND;
    OneMore(c, s0, a4, s4, Write);
    acts' := a4 + [Write];
  }

  /** The copy handed back when attempts run out may mix two publications. */
  lemma FallbackMayBeTorn() returns (c: Config, s0: State, acts: seq<Action>)
    ensures Initial(c, s0) && CanRun(c, s0, acts)
    ensures var s := Run(c, s0, acts);
      |s.results| == 1 && s.results[0].Fallback? && s.results[0].copy !in s.published
  {
    c, s0 := Config(2, 1, FIRST), State(0, FIRST, Idle, [FIRST], FIRST, Away, []);
    var a1 := HalfCopied(c, s0);
    var a2 := Overwritten(c, s0, a1, Copy(UNDISTURBED, 0, 0, 1));
    var s := State(2, SECOND, Idle, [FIRST, SECOND], FIRST, Copy(UNDISTURBED, 0, 0, 1), []);
    OneMore(c, s0, a2, s, Read);
    var torn := FIRST[1 := SECOND[1]];
    OneMore(c, s0, a2 + [Read], s.(copy := torn, reader := LoadPost(UNDISTURBED, 0, 0)), Read);
    acts := a2 + [Read] + [Read];
    assert torn[0] != SECOND[0] && torn[1] != FIRST[1];
  }
}
