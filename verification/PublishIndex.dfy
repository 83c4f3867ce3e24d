/**
 The per-Gateway publish index (`publish_index.rs`): a monotone rebuild counter and
 sticky stamps recording when a Gateway's current content was first published.
 */
module PublishIndex {
  import opened Options

  datatype ObjectKey = ObjectKey(ns: string, name: string)

  /** A Gateway's `(generation, content fingerprint)` as one rebuild published it. */
  datatype Content = Content(generation: int, fingerprint: nat)

  datatype Publication = Publication(key: ObjectKey, content: Content)

  datatype PublishStamp = PublishStamp(content: Content, seqNo: nat)

  type Stamps = map<ObjectKey, PublishStamp>

  datatype Index = Index(counter: nat, stamps: Stamps)

  datatype Event =
    | Rebuild(published: map<ObjectKey, Content>)
    | AdvanceTo(target: nat)

  /** The triples of one rebuild as a map; a repeated key keeps its last triple. */
  function Latest(published: seq<Publication>): map<ObjectKey, Content> {
    if published == [] then map[]
    else Latest(published[..|published| - 1])[published[|published| - 1].key := published[|published| - 1].content]
  }

  /** A key keeps its stamp while it republishes the same content, else is stamped afresh. */
  function Restamp(prior: Stamps, published: map<ObjectKey, Content>, seqNo: nat): Stamps {
    map k | k in published ::
      if k in prior && prior[k].content == published[k] then prior[k] else PublishStamp(published[k], seqNo)
  }

  function Step(ix: Index, e: Event): Index {
    match e
    case Rebuild(published) => Index(ix.counter + 1, Restamp(ix.stamps, published, ix.counter + 1))
    case AdvanceTo(target) => Index(Max(ix.counter, target), ix.stamps)
  }

  function Run(events: seq<Event>): Index {
    if events == [] then Index(0, map[]) else Step(Run(events[..|events| - 1]), events[|events| - 1])
  }

  // ---- The reference: the history of rebuilds with their sequences ----

  datatype Done = Done(seqNo: nat, published: map<ObjectKey, Content>)

  /** The rebuilds of a history, each with the sequence `stamp_rebuild` returned for it. */
  function Log(events: seq<Event>): seq<Done> {
    if events == [] then []
    else
      var front, last := events[..|events| - 1], events[|events| - 1];
      if last.Rebuild? then Log(front) + [Done(Run(front).counter + 1, last.published)] else Log(front)
  }

  ghost predicate Publishes(d: Done, key: ObjectKey, content: Content) {
    key in d.published && d.published[key] == content
  }

  /** `j` begins the maximal unbroken run, ending now, of rebuilds publishing `content`. */
  ghost predicate BeginsRun(log: seq<Done>, key: ObjectKey, content: Content, j: int) {
    && 0 <= j < |log|
    && (forall m :: j <= m < |log| ==> Publishes(log[m], key, content))
    && (j == 0 || !Publishes(log[j - 1], key, content))
  }

  /** Rebuild sequences strictly increase, whatever `advance_to` calls come between them. */
  lemma {:induction false} SequencesIncrease(events: seq<Event>)
    ensures forall i, j :: 0 <= i < j < |Log(events)| ==> Log(events)[i].seqNo < Log(events)[j].seqNo
    ensures forall i :: 0 <= i < |Log(events)| ==> 1 <= Log(events)[i].seqNo <= Run(events).counter
    ensures forall i :: 0 <= i < |events| && events[i].AdvanceTo? ==> events[i].target <= Run(events).counter
  {
    if events != [] {
      SequencesIncrease(events[..|events| - 1]);
    }
  }

  /**
   A stamp carries the content of the last rebuild and the sequence of the first rebuild of
   the unbroken run publishing it. A key the last rebuild left out has no stamp, so dropping
   and re-adding a key begins a new run.
   */
  lemma {:induction false} StampsMarkRunStarts(events: seq<Event>, key: ObjectKey)
    ensures var log, stamps := Log(events), Run(events).stamps;
            && (key in stamps <==> log != [] && key in log[|log| - 1].published)
            && (key in stamps ==>
                  && stamps[key].content == log[|log| - 1].published[key]
                  && exists j :: BeginsRun(log, key, stamps[key].content, j) && stamps[key].seqNo == log[j].seqNo)
  {
    if events != [] {
      var front, last := events[..|events| - 1], events[|events| - 1];
      StampsMarkRunStarts(front, key);
      var before, log := Log(front), Log(events);
      if last.Rebuild? && key in last.published {
        var content := last.published[key];
        var prior := Run(front).stamps;
        if key in prior && prior[key].content == content {
          var j :| BeginsRun(before, key, content, j) && prior[key].seqNo == before[j].seqNo;
          assert BeginsRun(log, key, content, j);
        } else {
          assert before != [] ==> !Publishes(before[|before| - 1], key, content);
          assert BeginsRun(log, key, content, |before|);
        }
      }
    }
  }

  // ---- The shared handle ----

  class GatewayPublishIndex {
    var stamps: Stamps
    var counter: nat

    ghost function State(): Index
      reads this
    {
      Index(counter, stamps)
    }

    constructor ()
      ensures State() == Run([])
    {
      stamps := map[];
      counter := 0;
    }

    method StampRebuild(published: seq<Publication>) returns (seqNo: nat)
      modifies this
      ensures seqNo == old(counter) + 1
      ensures State() == Step(old(State()), Rebuild(Latest(published)))
    {
      counter := counter + 1;
      seqNo := counter;
      var prior := stamps;
      var next: Stamps := map[];
      for i := 0 to |published|
        invariant next == Restamp(prior, Latest(published[..i]), seqNo)
        invariant stamps == prior && counter == seqNo
      {
        assert published[..i + 1][..i] == published[..i];
        var key, content := published[i].key, published[i].content;
        var stamp := if key in prior && prior[key].content == content then prior[key]
                     else PublishStamp(content, seqNo);
        next := next[key := stamp];
      }
      assert published[..|published|] == published;
      stamps := next;
    }

    method Get(key: ObjectKey) returns (stamp: Option<PublishStamp>)
      ensures stamp == if key in stamps then Some(stamps[key]) else None
    {
      stamp := if key in stamps then Some(stamps[key]) else None;
    }

    /** Never regresses, and stamps nothing. */
    method AdvanceCounterTo(target: nat)
      modifies this
      ensures State() == Step(old(State()), AdvanceTo(target))
      ensures counter >= old(counter) && counter >= target && stamps == old(stamps)
    {
      counter := Max(counter, target);
    }
  }
}
