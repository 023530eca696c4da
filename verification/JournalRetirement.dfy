/**
 The batch job that retires journal rows of finished tasks: one gateway call and one guarded
 update per candidate, with counters.
 */
module JournalRetirement {
  import opened Common
  import opened NodeTaskEntity
  import opened AgentAgreement

  /** The gateway's answer; `Raised` covers every exception, `Unexpected` every other status text. */
  datatype Reply = RetiredReply | AlreadyRetiredReply | InProgressReply | Unexpected | Raised

  /** `reachable`: the node and its active credential were found. */
  datatype Candidate = Candidate(key: OpKey, reachable: bool, reply: Reply, at: int)

  datatype TaskMark = TaskMark(status: TaskStatus, retiredAt: Option<int>)

  datatype Counters = Counters(
    selected: int, retired: int, alreadyRetired: int, inProgress: int, marked: int, stale: int, failed: int)

  predicate Confirmed(c: Candidate) {
    c.reachable && (c.reply == RetiredReply || c.reply == AlreadyRetiredReply)
  }

  predicate Markable(marks: map<OpKey, TaskMark>, key: OpKey) {
    key in marks && !IsOpen(marks[key].status) && marks[key].retiredAt.None?
  }

  /** The rows that the job marks: finished, unmarked, and confirmed by their agent. */
  function ToMark(cs: seq<Candidate>, marks: map<OpKey, TaskMark>): set<OpKey> {
    set c | c in cs && Confirmed(c) && Markable(marks, c.key) :: c.key
  }

  /** `after` differs from `before` exactly in that the rows of `keys` are now marked. */
  ghost predicate MarkedExactly(before: map<OpKey, TaskMark>, after: map<OpKey, TaskMark>, keys: set<OpKey>) {
    && after.Keys == before.Keys
    && (forall key :: key in before && key !in keys ==> after[key] == before[key])
    && (forall key :: key in before && key in keys ==>
          after[key].status == before[key].status && after[key].retiredAt.Some?)
  }

  lemma ToMarkAppend(cs: seq<Candidate>, c: Candidate, marks: map<OpKey, TaskMark>)
    ensures ToMark(cs + [c], marks)
      == if Confirmed(c) && Markable(marks, c.key) then ToMark(cs, marks) + {c.key} else ToMark(cs, marks)
  {
    forall d ensures d in cs + [c] <==> d in cs || d == c {}
  }

  /** `mark_task_journal_retired`. */
  function Marked(marks: map<OpKey, TaskMark>, key: OpKey, at: int): map<OpKey, TaskMark> {
    if Markable(marks, key) then marks[key := marks[key].(retiredAt := Some(at))] else marks
  }

  /** The table after the candidates, in order: the first confirmed one of a key sets the mark, with its time. */
  function MarkedBy(marks: map<OpKey, TaskMark>, cs: seq<Candidate>): map<OpKey, TaskMark> {
    if cs == [] then marks
    else
      var before, c := MarkedBy(marks, cs[..|cs| - 1]), cs[|cs| - 1];
      if Confirmed(c) then Marked(before, c.key, c.at) else before
  }

  /** One confirmed candidate: its row is marked now, was marked before, or may not be marked. */
  lemma MarkStep(before: map<OpKey, TaskMark>, after: map<OpKey, TaskMark>, done: set<OpKey>, key: OpKey, at: int)
    requires MarkedExactly(before, after, done) && forall k :: k in done ==> Markable(before, k)
    ensures Markable(after, key) <==> Markable(before, key) && key !in done
    ensures MarkedExactly(before, Marked(after, key, at), if Markable(before, key) then done + {key} else done)
    ensures |if Markable(before, key) then done + {key} else done| == |done| + if Markable(after, key) then 1 else 0
  {
    if key in done { assert done + {key} == done; }
  }

  /** The job marks exactly the finished, unmarked rows that their agents confirmed. */
  lemma {:induction false} MarkedByExact(marks: map<OpKey, TaskMark>, cs: seq<Candidate>)
    ensures MarkedExactly(marks, MarkedBy(marks, cs), ToMark(cs, marks))
  {
    if cs != [] {
      var init, c := cs[..|cs| - 1], cs[|cs| - 1];
      assert cs == init + [c];
      MarkedByExact(marks, init);
      ToMarkAppend(init, c, marks);
      MarkStep(marks, MarkedBy(marks, init), ToMark(init, marks), c.key, c.at);
      hide ToMark, MarkedExactly;
    }
  }

  /** A row is marked exactly when its task has ended, it was not marked before, and its agent was reached and confirmed. */
  lemma MarkedExactlyWhen(marks: map<OpKey, TaskMark>, cs: seq<Candidate>, key: OpKey)
    requires key in marks
    ensures key in MarkedBy(marks, cs)
    ensures MarkedBy(marks, cs)[key] != marks[key] <==>
      && marks[key].status != Pending && marks[key].status != InProgress && marks[key].retiredAt.None?
      && exists c :: c in cs && c.key == key && c.reachable && (c.reply == RetiredReply || c.reply == AlreadyRetiredReply)
  {
    MarkedByExact(marks, cs);
    hide MarkedBy;
    assert key in ToMark(cs, marks) <==> Markable(marks, key) && exists c :: c in cs && c.key == key && Confirmed(c);
  }

  /** A candidate adds to the marked rows exactly when its update finds a row to mark. */
  lemma MarkedCount(marks: map<OpKey, TaskMark>, cs: seq<Candidate>, c: Candidate)
    ensures |ToMark(cs + [c], marks)|
      == |ToMark(cs, marks)| + if Confirmed(c) && Markable(MarkedBy(marks, cs), c.key) then 1 else 0
  {
    MarkedByExact(marks, cs);
    ToMarkAppend(cs, c, marks);
    MarkStep(marks, MarkedBy(marks, cs), ToMark(cs, marks), c.key, c.at);
    hide ToMark, MarkedExactly, MarkedBy;
  }

  /** How many candidates were reached and gave this reply. */
  function Replies(cs: seq<Candidate>, reply: Reply): int {
    if cs == [] then 0
    else Replies(cs[..|cs| - 1], reply) + if cs[|cs| - 1].reachable && cs[|cs| - 1].reply == reply then 1 else 0
  }

  function Unreached(cs: seq<Candidate>): int {
    if cs == [] then 0 else Unreached(cs[..|cs| - 1]) + if cs[|cs| - 1].reachable then 0 else 1
  }

  /** Each counter counts its own outcome. */
  ghost predicate CountersExact(cs: seq<Candidate>, r: Counters) {
    && r.retired == Replies(cs, RetiredReply) && r.alreadyRetired == Replies(cs, AlreadyRetiredReply)
    && r.inProgress == Replies(cs, InProgressReply)
    && r.failed == Unreached(cs) + Replies(cs, Unexpected) + Replies(cs, Raised)
  }

  lemma CountedSnoc(cs: seq<Candidate>, c: Candidate)
    ensures Unreached(cs + [c]) == Unreached(cs) + if c.reachable then 0 else 1
    ensures forall reply :: Replies(cs + [c], reply) == Replies(cs, reply) + if c.reachable && c.reply == reply then 1 else 0
  {
    assert (cs + [c])[..|cs|] == cs;
  }

  /** `RetireNodeJournalRecords.execute` on a loaded batch. */
  method RetireRecords(cs: seq<Candidate>, marks: map<OpKey, TaskMark>) returns (after: map<OpKey, TaskMark>, r: Counters)
    ensures after == MarkedBy(marks, cs)
    ensures r.selected == |cs| == r.retired + r.alreadyRetired + r.inProgress + r.failed && CountersExact(cs, r)
    ensures r.marked == |ToMark(cs, marks)|
    ensures r.marked + r.stale == r.retired + r.alreadyRetired
  {
    hide ToMark, MarkedBy, Markable, Marked, Replies, Unreached;
    after, r := marks, Counters(|cs|, 0, 0, 0, 0, 0, 0);
    NothingToMark(marks);
    NothingCounted();
    assert cs[..0] == [];
    for i := 0 to |cs|
      invariant after == MarkedBy(marks, cs[..i])
      invariant r.selected == |cs| && i == r.retired + r.alreadyRetired + r.inProgress + r.failed
      invariant CountersExact(cs[..i], r)
      invariant r.marked == |ToMark(cs[..i], marks)|
      invariant r.marked + r.stale == r.retired + r.alreadyRetired
    {
      var c := cs[i];
      assert cs[..i + 1] == cs[..i] + [c];
      MarkedCount(marks, cs[..i], c);
      MarkedBySnoc(marks, cs[..i], c);
      CountedSnoc(cs[..i], c);
      if !c.reachable || c.reply == Raised {
        r := r.(failed := r.failed + 1);
        continue;
      }
      if c.reply == InProgressReply {
        r := r.(inProgress := r.inProgress + 1);
        continue;
      }
      if c.reply == Unexpected {
        r := r.(failed := r.failed + 1);
        continue;
      }
      if c.reply == RetiredReply { r := r.(retired := r.retired + 1); }
      else { r := r.(alreadyRetired := r.alreadyRetired + 1); }
      var marked := Markable(after, c.key);
      after := Marked(after, c.key, c.at);
      if marked { r := r.(marked := r.marked + 1); } else { r := r.(stale := r.stale + 1); }
    }
    assert cs[..|cs|] == cs;
  }

  lemma NothingCounted()
    ensures Unreached([]) == 0 && forall reply :: Replies([], reply) == 0
  {
  }

  lemma NothingToMark(marks: map<OpKey, TaskMark>)
    ensures MarkedBy(marks, []) == marks && ToMark([], marks) == {}
  {
  }

  lemma MarkedBySnoc(marks: map<OpKey, TaskMark>, cs: seq<Candidate>, c: Candidate)
    ensures MarkedBy(marks, cs + [c]) == if Confirmed(c) then Marked(MarkedBy(marks, cs), c.key, c.at) else MarkedBy(marks, cs)
  {
    assert (cs + [c])[..|cs|] == cs;
  }

  /** In a batch that lists a key once, as the query does, a marked row holds its own candidate's time. */
  lemma {:induction false} MarkHoldsItsTime(marks: map<OpKey, TaskMark>, cs: seq<Candidate>, i: int)
    requires 0 <= i < |cs| && Confirmed(cs[i]) && Markable(marks, cs[i].key)
    requires forall j, k :: 0 <= j < k < |cs| ==> cs[j].key != cs[k].key
    ensures cs[i].key in MarkedBy(marks, cs)
    ensures MarkedBy(marks, cs)[cs[i].key] == marks[cs[i].key].(retiredAt := Some(cs[i].at))
  {
    var n := |cs| - 1;
    if i < n {
      MarkHoldsItsTime(marks, cs[..n], i);
    } else {
      UnlistedUnmarked(marks, cs[..n], cs[i].key);
    }
  }

  lemma {:induction false} UnlistedUnmarked(marks: map<OpKey, TaskMark>, cs: seq<Candidate>, key: OpKey)
    requires key in marks && forall j :: 0 <= j < |cs| ==> cs[j].key != key
    ensures key in MarkedBy(marks, cs) && MarkedBy(marks, cs)[key] == marks[key]
  {
    if cs != [] { UnlistedUnmarked(marks, cs[..|cs| - 1], key); }
  }
}
