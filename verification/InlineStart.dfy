/** A start that opens its bag inline, and what its caller learns. */
module InlineStart {
  import opened RecorderTypes
  import opened LatchedBuffers
  import opened RecorderState
  import opened ExecutorSteps

  /** Where begin_episode throws: while topics are registered, or while the head is written; or nowhere. */
  datatype Fault = NoFault | AtTopic(created: nat) | AtHead(flushed: nat)

  function Least(a: nat, b: nat): nat {
    if a < b then a else b
  }

  function Created(fault: Fault, topics: nat): nat {
    if fault.AtTopic? then Least(fault.created, topics) else topics
  }

  function Flushes(fault: Fault, head: nat): nat {
    if fault.AtHead? then Least(fault.flushed, head) else head
  }

  /** Go live, or catch what opening threw. */
  function Conclude(s: Recorder, now: int): Recorder
    requires s.exec.pc.Flushed? || s.exec.pc.OpenFailed?
  {
    if s.exec.pc.OpenFailed? then AbortOpenStep(s) else GoLiveStep(SpawnThreadStep(s), now)
  }

  /** begin_episode and the catch around it, with no step of the writer thread in between. */
  function BeginEpisode(s: Recorder, fault: Fault, start: int, now: int): Recorder
    requires s.exec.pc.Opening?
  {
    var storage := OpenStorageStep(s, Created(fault, |s.table.topics|), !fault.AtTopic?);
    if fault.AtTopic? then Conclude(storage, now)
    else
      Conclude(FlushHeadStep(storage, start, Flushes(fault, |HeadEntries(storage.table.topics, start)|)), now)
  }

  lemma {:induction false} SameHead(a: seq<TopicState>, b: seq<TopicState>, start: int)
    requires SameBuffers(a, b)
    ensures HeadEntries(a, start) == HeadEntries(b, start)
    decreases |a|
  {
    if a != [] {
      SameHead(a[..|a| - 1], b[..|b| - 1], start);
    }
  }

  /** Some step of opening throws: the head can only fail at one of its messages. */
  predicate Throws(fault: Fault, topics: seq<TopicState>, start: int) {
    fault.AtTopic? || (fault.AtHead? && fault.flushed < |HeadEntries(topics, start)|)
  }

  lemma Concluded(s: Recorder, now: int)
    requires (s.exec.pc.Flushed? || s.exec.pc.OpenFailed?) && !s.exec.recording
    ensures var s' := Conclude(s, now);
      if s.exec.pc.OpenFailed? then
        && !s'.exec.recording && s'.sink.writer.None?
        && (s'.exec.pc.Idle? || s'.exec.pc == Settling(FAILED_START, AfterFailedStart))
      else s'.exec.recording && s'.exec.pc.Idle? && s'.sink.writer == s.sink.writer
  {
  }

  /** The episode is live, its bag open with its whole head, unless something threw; then no bag is open. */
  lemma BeginEpisodeOutcome(s: Recorder, fault: Fault, start: int, now: int)
    requires s.exec.pc.Opening? && !s.exec.recording && s.sink.writer.None?
    ensures var s' := BeginEpisode(s, fault, start, now);
      if Throws(fault, s.table.topics, start) then
        && !s'.exec.recording && s'.sink.writer.None?
        && (s'.exec.pc.Idle? || s'.exec.pc == Settling(FAILED_START, AfterFailedStart))
      else
        && s'.exec.recording && s'.exec.pc.Idle? && s'.sink.writer.Some?
        && s'.sink.writer.value.entries == HeadEntries(s.table.topics, start)
  {
    var storage := OpenStorageStep(s, Created(fault, |s.table.topics|), !fault.AtTopic?);
    if fault.AtTopic? {
      Concluded(storage, now);
    } else {
      var head := HeadEntries(storage.table.topics, start);
      SameHead(s.table.topics, storage.table.topics, start);
      Concluded(FlushHeadStep(storage, start, Flushes(fault, |head|)), now);
    }
  }

  /** ~/start_recording, an inline open included. */
  function ServiceStart(s: Recorder, found: seq<RecordTopic>, fault: Fault, start: int, now: int): Recorder
    requires StartEnabled(s, StartService(found))
  {
    var begun := StartServiceStep(s, found);
    if begun.exec.pc.Opening? then BeginEpisode(begun, fault, start, now) else begun
  }
}
