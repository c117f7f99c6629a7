/** What one pass of a handler does to each bundle, whatever the visiting order, and when repeated passes fail it. */
module BundleHandlers {
  import opened Options
  import opened BundleLifecycle

  /** All that is recorded about one bundle. */
  datatype Record = Record(bundle: Option<Bundle>, attempts: Option<int>, endings: seq<Ending>)

  /** The endings of one bundle, in order. */
  function EndingsOf(endings: seq<(Id, Ending)>, id: Id): seq<Ending> {
    if endings == [] then []
    else
      var (who, why) := endings[|endings| - 1];
      EndingsOf(endings[..|endings| - 1], id) + (if who == id then [why] else [])
  }

  function RecordOf(c: Core, id: Id): Record {
    Record(if id in c.active then Some(c.active[id]) else None,
           if id in c.queue then Some(c.queue[id]) else None,
           EndingsOf(c.endings, id))
  }

  lemma EndedRecord(c: Core, id: Id, why: Ending, other: Id)
    ensures EndingsOf(Ended(c, id, why).endings, other) == EndingsOf(c.endings, other) + (if other == id then [why] else [])
  {
    assert (c.endings + [(id, why)])[..|c.endings|] == c.endings;
  }

  lemma EndedRecords(c: Core, id: Id, why: Ending, other: Id)
    requires other != id
    ensures RecordOf(Ended(c, id, why), other) == RecordOf(c, other)
  {
    EndedRecord(c, id, why, other);
  }

  /** A step that concerns one bundle leaves the record of every other one, and treats equal records alike. */
  lemma CheckOneOther(cfg: Config, c: Core, id: Id, block: int, included: bool, other: Id)
    requires other != id
    ensures RecordOf(CheckOne(cfg, c, id, block, included), other) == RecordOf(c, other)
  {
    EndedRecords(c, id, Included, other);
    EndedRecords(c, id, Failed, other);
  }

  lemma CheckOneAlike(cfg: Config, c: Core, before: Core, id: Id, block: int, included: bool)
    requires RecordOf(c, id) == RecordOf(before, id)
    ensures RecordOf(CheckOne(cfg, c, id, block, included), id) == RecordOf(CheckOne(cfg, before, id, block, included), id)
  {
    var why := if included then Included else Failed;
    EndedRecord(c, id, why, id);
    EndedRecord(before, id, why, id);
  }

  lemma ResubmitOneOther(cfg: Config, c: Core, id: Id, block: int, accepted: bool, other: Id)
    requires other != id
    ensures RecordOf(ResubmitOne(cfg, c, id, block, accepted), other) == RecordOf(c, other)
  {
    EndedRecords(c, id, Failed, other);
  }

  lemma ResubmitOneAlike(cfg: Config, c: Core, before: Core, id: Id, block: int, accepted: bool)
    requires RecordOf(c, id) == RecordOf(before, id)
    ensures RecordOf(ResubmitOne(cfg, c, id, block, accepted), id) == RecordOf(ResubmitOne(cfg, before, id, block, accepted), id)
  {
    EndedRecord(c, id, Failed, id);
    EndedRecord(before, id, Failed, id);
  }

  lemma ExpireOneAlike(cfg: Config, c: Core, before: Core, id: Id, now: int)
    requires RecordOf(c, id) == RecordOf(before, id)
    ensures RecordOf(ExpireOne(cfg, c, id, now), id) == RecordOf(ExpireOne(cfg, before, id, now), id)
  {
    EndedRecord(c, id, Expired, id);
    EndedRecord(before, id, Expired, id);
  }

  ghost predicate Distinct(order: seq<Id>) { forall i, j :: 0 <= i < j < |order| ==> order[i] != order[j] }

  /** In any order, each visited bundle is treated as if it were the only one. */
  lemma {:induction false} CheckAllEach(cfg: Config, c: Core, order: seq<Id>, block: int, landed: set<Id>, id: Id)
    requires Distinct(order)
    ensures RecordOf(CheckAll(cfg, c, order, block, landed), id)
         == if id in order then RecordOf(CheckOne(cfg, c, id, block, id in landed), id) else RecordOf(c, id)
  {
    if order != [] {
      var front, last := order[..|order| - 1], order[|order| - 1];
      CheckAllEach(cfg, c, front, block, landed, id);
      assert order == front + [last];
      var mid := CheckAll(cfg, c, front, block, landed);
      if id == last {
        CheckOneAlike(cfg, mid, c, id, block, id in landed);
      } else {
        CheckOneOther(cfg, mid, last, block, last in landed, id);
      }
    }
  }

  lemma {:induction false} ResubmitAllEach(cfg: Config, c: Core, order: seq<Id>, block: int, accepted: set<Id>, id: Id)
    requires Distinct(order)
    ensures RecordOf(ResubmitAll(cfg, c, order, block, accepted), id)
         == if id in order then RecordOf(ResubmitOne(cfg, c, id, block, id in accepted), id) else RecordOf(c, id)
  {
    if order != [] {
      var front, last := order[..|order| - 1], order[|order| - 1];
      ResubmitAllEach(cfg, c, front, block, accepted, id);
      assert order == front + [last];
      var mid := ResubmitAll(cfg, c, front, block, accepted);
      if id == last {
        ResubmitOneAlike(cfg, mid, c, id, block, id in accepted);
      } else {
        ResubmitOneOther(cfg, mid, last, block, last in accepted, id);
      }
    }
  }

  lemma {:induction false} ExpireAllEach(cfg: Config, c: Core, order: seq<Id>, now: int, id: Id)
    requires Distinct(order)
    ensures RecordOf(ExpireAll(cfg, c, order, now), id)
         == if id in order then RecordOf(ExpireOne(cfg, c, id, now), id) else RecordOf(c, id)
  {
    if order != [] {
      var front, last := order[..|order| - 1], order[|order| - 1];
      ExpireAllEach(cfg, c, front, now, id);
      assert order == front + [last];
      var mid := ExpireAll(cfg, c, front, now);
      if id == last {
        ExpireOneAlike(cfg, mid, c, id, now);
      } else {
        EndedRecords(mid, last, Expired, id);
      }
    }
  }

  // ---------- One pass ----------

  /** A bundle more than two blocks past its target that the block does not hold. */
  ghost predicate Missed(c: Core, id: Id, block: int, landed: set<Id>) {
    id in c.active && id !in landed && block - c.active[id].targetBlock >= 3
  }

  ghost predicate Found(c: Core, id: Id, block: int, landed: set<Id>) {
    id in c.active && id in landed && block - c.active[id].targetBlock >= 0
  }

  function Attempts(c: Core, id: Id): int { if id in c.queue then c.queue[id] else 0 }

  /**
   * A block, whatever the visiting order: a bundle leaves exactly when it is found at its target or later, or missed
   * with no attempt left; a missed one with an attempt left is queued for it; nothing else changes.
   */
  lemma BlockDecides(cfg: Config, c: Core, order: seq<Id>, block: int, landed: set<Id>, id: Id)
    requires Visits(order, c.active.Keys)
    ensures var r, r' := RecordOf(c, id), RecordOf(CheckAll(cfg, c, order, block, landed), id);
            var lost := Missed(c, id, block, landed) && Attempts(c, id) >= cfg.maxResubmissions;
            && (r'.bundle == if Found(c, id, block, landed) || lost then None else r.bundle)
            && (r'.attempts == if lost then None
                               else if Missed(c, id, block, landed) then Some(Attempts(c, id) + 1)
                               else r.attempts)
            && (r'.endings == r.endings + (if Found(c, id, block, landed) then [Included] else if lost then [Failed] else []))
  {
    CheckAllEach(cfg, c, order, block, landed, id);
    EndedRecord(c, id, Included, id);
    EndedRecord(c, id, Failed, id);
  }

  /**
   * A resubmission pass, whatever the visiting order: an accepted bundle aims at the next block, keeps its age and
   * leaves the queue; a refused one counts the attempt, and fails when that was the last.
   */
  lemma ResubmissionDecides(cfg: Config, c: Core, order: seq<Id>, block: int, accepted: set<Id>, id: Id)
    requires Visits(order, c.queue.Keys)
    ensures var r, r' := RecordOf(c, id), RecordOf(ResubmitAll(cfg, c, order, block, accepted), id);
            var tried := id in c.queue && id in c.active;
            var lost := tried && id !in accepted && c.queue[id] + 1 >= cfg.maxResubmissions;
            && (r'.bundle == if lost then None
                             else if tried && id in accepted then Some(Bundle(block + 1, c.active[id].createdAt))
                             else r.bundle)
            && (r'.attempts == if lost || (tried && id in accepted) then None
                               else if tried then Some(c.queue[id] + 1)
                               else r.attempts)
            && (r'.endings == r.endings + (if lost then [Failed] else []))
  {
    ResubmitAllEach(cfg, c, order, block, accepted, id);
    OneResubmission(cfg, c, id, block, id in accepted);
  }

  lemma OneResubmission(cfg: Config, c: Core, id: Id, block: int, accepted: bool)
    ensures var r := RecordOf(ResubmitOne(cfg, c, id, block, accepted), id);
            if id !in c.queue || id !in c.active then r == RecordOf(c, id)
            else if accepted then r == Record(Some(Bundle(block + 1, c.active[id].createdAt)), None, EndingsOf(c.endings, id))
            else if c.queue[id] + 1 >= cfg.maxResubmissions then r == Record(None, None, EndingsOf(c.endings, id) + [Failed])
            else r == Record(Some(c.active[id]), Some(c.queue[id] + 1), EndingsOf(c.endings, id))
  {
    EndedRecord(c, id, Failed, id);
  }

  /** A clean-up, whatever the visiting order: exactly the bundles older than the timeout leave; their queue entries stay. */
  lemma CleanupDecides(cfg: Config, c: Core, order: seq<Id>, now: int, id: Id)
    requires Visits(order, c.active.Keys)
    ensures var r, r' := RecordOf(c, id), RecordOf(ExpireAll(cfg, c, order, now), id);
            var aged := id in c.active && c.active[id].createdAt + cfg.bundleTimeoutMs < now;
            && (r'.bundle == if aged then None else r.bundle) && r'.attempts == r.attempts
            && (r'.endings == r.endings + (if aged then [Expired] else []))
  {
    ExpireAllEach(cfg, c, order, now, id);
    EndedRecord(c, id, Expired, id);
  }

  // ---------- Repeated passes ----------

  function Blocks(cfg: Config, c: Core, id: Id, blocks: seq<int>): Core {
    if blocks == [] then c else CheckOne(cfg, Blocks(cfg, c, id, blocks[..|blocks| - 1]), id, blocks[|blocks| - 1], false)
  }

  /** A bundle that is never resubmitted fails in exactly the first miss after all its attempts were queued. */
  lemma {:induction false} MissedOut(cfg: Config, c: Core, id: Id, blocks: seq<int>)
    requires id in c.active && id !in c.queue && cfg.maxResubmissions >= 0
    requires forall i :: 0 <= i < |blocks| ==> blocks[i] - c.active[id].targetBlock >= 3
    ensures var r := RecordOf(Blocks(cfg, c, id, blocks), id);
            if |blocks| <= cfg.maxResubmissions then
              r == Record(Some(c.active[id]), if blocks == [] then None else Some(|blocks|), EndingsOf(c.endings, id))
            else r == Record(None, None, EndingsOf(c.endings, id) + [Failed])
  {
    if blocks != [] {
      var n := |blocks| - 1;
      MissedOut(cfg, c, id, blocks[..n]);
      EndedRecord(Blocks(cfg, c, id, blocks[..n]), id, Failed, id);
    }
  }

  function Refusals(cfg: Config, c: Core, id: Id, blocks: seq<int>): Core {
    if blocks == [] then c else ResubmitOne(cfg, Refusals(cfg, c, id, blocks[..|blocks| - 1]), id, blocks[|blocks| - 1], false)
  }

  /** A queued bundle that every relay keeps refusing fails as soon as its count reaches the maximum. */
  lemma {:induction false} RefusedOut(cfg: Config, c: Core, id: Id, blocks: seq<int>)
    requires id in c.active && id in c.queue && blocks != []
    ensures var n := |blocks|;
            var r := RecordOf(Refusals(cfg, c, id, blocks), id);
            if c.queue[id] + n < cfg.maxResubmissions then
              r == Record(Some(c.active[id]), Some(c.queue[id] + n), EndingsOf(c.endings, id))
            else r == Record(None, None, EndingsOf(c.endings, id) + [Failed])
  {
    var front := blocks[..|blocks| - 1];
    if front != [] {
      RefusedOut(cfg, c, id, front);
    }
    EndedRecord(Refusals(cfg, c, id, front), id, Failed, id);
  }
}
