/** internal/sources/sources.go, the second half: sample validation and the fail-closed query pair. */
module Backend {
  import opened Wrappers
  import opened Api
  import opened Sources

  /** A parsed sample value. */
  datatype Float = NaN | PosInf | NegInf | Finite(value: real)

  /** What the backend answered to one instant query, after transport and decoding. */
  datatype Reply = Broken | Samples(values: seq<Float>)

  datatype QueryError = QueryFailed | MultiSample | PartialSample | InvalidSample | TargetUnavailable

  /** An empty vector is None. */
  function Query(reply: Reply): Result<Option<Float>, QueryError> {
    match reply
    case Broken => Err(QueryFailed)
    case Samples(values) =>
      if |values| == 0 then Ok(None)
      else if |values| != 1 then Err(MultiSample)
      else if values[0].NaN? then Err(InvalidSample)
      else Ok(Some(values[0]))
  }

  /** 4835703278458516 / 2^19: the step below the binary64 value of 2^63 / 10^9. */
  const MAX_CPU: real := 4835703278458516.0 / 524288.0

  /** 2^63 - 1024: the step below the binary64 value of the greatest int64. */
  const MAX_MEMORY: real := 9223372036854774784.0

  predicate ValidFiniteNonNegative(v: Float) {
    v.Finite? && v.value >= 0.0
  }

  predicate ValidCpuSample(v: Float) {
    ValidFiniteNonNegative(v) && v.value <= MAX_CPU
  }

  predicate ValidMemorySample(v: Float) {
    ValidFiniteNonNegative(v) && v.value <= MAX_MEMORY
  }

  type Amount = x: real | x >= 0.0

  /** A measured footprint; `found` is false when the workload emitted no series. */
  datatype Reading = Reading(cpu: Amount, memory: Amount, found: bool)

  /** The backend's answers to the CPU, memory and health queries of one pass. */
  datatype Replies = Replies(cpu: Reply, memory: Reply, health: Reply)

  function QueryPair(q: Queries, replies: Replies): (r: Result<Reading, QueryError>)
    ensures r.Ok? ==> 0.0 <= r.value.cpu <= MAX_CPU && 0.0 <= r.value.memory <= MAX_MEMORY
  {
    var cpu := Query(replies.cpu);
    if cpu.Err? then Err(cpu.error)
    else
      var memory := Query(replies.memory);
      if memory.Err? then Err(memory.error)
      else if cpu.value.Some? != memory.value.Some? then Err(PartialSample)
      else if cpu.value.None? then
        if q.targetHealth == "" then Ok(Reading(0.0, 0.0, false))
        else
          var health := Query(replies.health);
          if health.Err? || health.value.None? || health.value.value != Finite(1.0) then Err(TargetUnavailable)
          else Ok(Reading(0.0, 0.0, false))
      else if !ValidCpuSample(cpu.value.value) || !ValidMemorySample(memory.value.value) then Err(InvalidSample)
      else Ok(Reading(cpu.value.value.value, memory.value.value.value, true))
  }

  // ----- When a pair is accepted --------------------------------------------------------

  /** One sample on each side, both usable. */
  predicate CompletePair(replies: Replies) {
    && replies.cpu.Samples? && |replies.cpu.values| == 1 && ValidCpuSample(replies.cpu.values[0])
    && replies.memory.Samples? && |replies.memory.values| == 1 && ValidMemorySample(replies.memory.values[0])
  }

  /** No sample on either side. */
  predicate AbsentPair(replies: Replies) {
    replies.cpu == Samples([]) && replies.memory == Samples([])
  }

  /** The pinned target answered with exactly one sample equal to 1. */
  predicate TargetUp(replies: Replies) {
    replies.health == Samples([Finite(1.0)])
  }

  /**
   * Fail closed: a pair is accepted exactly when it is complete and valid, or absent with a healthy
   * target (raw PromQL has no target to check); an accepted absent pair reads as zero.
   */
  lemma AcceptedIff(q: Queries, replies: Replies)
    ensures QueryPair(q, replies).Ok?
            <==> || CompletePair(replies)
                 || (&& replies.cpu == Samples([]) && replies.memory == Samples([])
                     && (q.targetHealth == "" || replies.health == Samples([Finite(1.0)])))
    ensures QueryPair(q, replies).Ok?
            ==> QueryPair(q, replies).value
                == if CompletePair(replies)
                   then Reading(replies.cpu.values[0].value, replies.memory.values[0].value, true)
                   else Reading(0.0, 0.0, false)
  {
    if replies.cpu.Samples? && |replies.cpu.values| == 0 {
      assert replies.cpu.values == [];
    }
    if replies.memory.Samples? && |replies.memory.values| == 0 {
      assert replies.memory.values == [];
    }
    if replies.health.Samples? && |replies.health.values| == 1 {
      assert replies.health.values == [replies.health.values[0]];
    }
  }

  /** An answer the controller can take a value from: nothing, or one number. */
  predicate Readable(reply: Reply) {
    reply == Samples([]) || (reply.Samples? && |reply.values| == 1 && !reply.values[0].NaN?)
  }

  predicate SeveralSamples(reply: Reply) {
    reply.Samples? && |reply.values| > 1
  }

  predicate OnlyNaN(reply: Reply) {
    reply == Samples([NaN])
  }

  lemma ReplyShapes(reply: Reply)
    ensures Query(reply) == if reply.Broken? then Err(QueryFailed)
                            else if SeveralSamples(reply) then Err(MultiSample)
                            else if OnlyNaN(reply) then Err(InvalidSample)
                            else if reply == Samples([]) then Ok(None) else Ok(Some(reply.values[0]))
    ensures Readable(reply) <==> Query(reply).Ok?
  {
    if reply.Samples? && |reply.values| == 1 { assert reply.values == [reply.values[0]]; }
  }

  /**
   * Why a pair is refused.  The CPU answer is judged first and the memory answer only when that one is readable; two
   * readable answers are refused when only one has a sample, when a sample is unusable, or when both are empty and the
   * pinned target is not up.
   */
  lemma RefusedBecause(q: Queries, replies: Replies)
    ensures QueryPair(q, replies) == Err(QueryFailed)
            <==> replies.cpu.Broken? || (Readable(replies.cpu) && replies.memory.Broken?)
    ensures QueryPair(q, replies) == Err(MultiSample)
            <==> SeveralSamples(replies.cpu) || (Readable(replies.cpu) && SeveralSamples(replies.memory))
    ensures QueryPair(q, replies) == Err(PartialSample)
            <==> && Readable(replies.cpu) && Readable(replies.memory)
                 && (replies.cpu == Samples([])) != (replies.memory == Samples([]))
    ensures QueryPair(q, replies) == Err(InvalidSample)
            <==> || OnlyNaN(replies.cpu) || (Readable(replies.cpu) && OnlyNaN(replies.memory))
                 || (&& Readable(replies.cpu) && Readable(replies.memory) && replies.cpu != Samples([])
                     && replies.memory != Samples([]) && !CompletePair(replies))
    ensures QueryPair(q, replies) == Err(TargetUnavailable)
            <==> && replies.cpu == Samples([]) && replies.memory == Samples([])
                 && q.targetHealth != "" && replies.health != Samples([Finite(1.0)])
  {
    hide Query, ValidCpuSample, ValidMemorySample;
    ReplyShapes(replies.cpu);
    ReplyShapes(replies.memory);
    ReplyShapes(replies.health);
  }
}
