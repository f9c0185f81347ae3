/** The condition list of an import's status: pkg/conditions/conditions.go. */
module Conditions {
  import opened Wrappers

  datatype Kind = Succeeded | Valid | MappingRulesVerified | Processing

  datatype Status = True | False | Unknown

  /** The reasons declared beside the condition types. */
  datatype Reason =
    // Succeeded
    | ValidationFailed | VMTemplateMatchingFailed | VMCreationFailed | DataVolumeCreationFailed
    | GuestConversionFailed | VirtualMachineReady | VirtualMachineRunning
    // Valid
    | ValidationCompleted | SecretNotFound | ResourceMappingNotFound | UninitializedProvider
    | UnreachableProvider | SourceVMNotFound | IncompleteMappingRules | ValidationReportedWarnings
    // MappingRulesVerified
    | MappingRulesVerificationCompleted | MappingRulesVerificationFailed
    | MappingRulesVerificationReportedWarnings
    // Processing
    | VMTemplateMatching | CreatingTargetVM | CopyingDisks | ConvertingGuest
    | ProcessingCompleted | ProcessingFailed | Pending

  /** Timestamps are abstract: only which of two is kept matters here. */
  type Time = int

  datatype Condition = Condition(
    kind: Kind,
    status: Status,
    reason: Reason,
    message: string,
    heartbeat: Time,
    transition: Time)

  function NewCondition(kind: Kind, reason: Reason, message: string, status: Status, now: Time): Condition {
    Condition(kind, status, reason, message, now, now)
  }

  /** The position of the first condition of a kind, or the length of the list. */
  function FirstIndex(cs: seq<Condition>, kind: Kind): (i: nat)
    ensures i <= |cs|
    ensures i < |cs| ==> cs[i].kind == kind
    ensures forall j | 0 <= j < i :: cs[j].kind != kind
  {
    if cs == [] then 0
    else if cs[0].kind == kind then 0
    else 1 + FirstIndex(cs[1..], kind)
  }

  function Find(cs: seq<Condition>, kind: Kind): Option<Condition> {
    var i := FirstIndex(cs, kind);
    if i < |cs| then Some(cs[i]) else None
  }

  /** What an update of an existing condition leaves: the transition time moves only with the status. */
  function Refreshed(old': Condition, new': Condition, now: Time): Condition {
    Condition(old'.kind, new'.status, new'.reason, new'.message, now,
              if old'.status != new'.status then new'.transition else old'.transition)
  }

  function Upsert(cs: seq<Condition>, c: Condition, now: Time): seq<Condition> {
    var i := FirstIndex(cs, c.kind);
    if i < |cs| then cs[i := Refreshed(cs[i], c, now)] else cs + [c]
  }

  predicate Unique(cs: seq<Condition>) {
    forall i, j | 0 <= i < j < |cs| :: cs[i].kind != cs[j].kind
  }

  /** An upsert changes what is found for its own kind and for no other, and keeps kinds unique. */
  lemma UpsertFind(cs: seq<Condition>, c: Condition, now: Time, kind: Kind)
    ensures Find(Upsert(cs, c, now), kind) ==
            if kind != c.kind then Find(cs, kind)
            else if Find(cs, kind).None? then Some(c)
            else Some(Refreshed(Find(cs, kind).value, c, now))
    ensures Unique(cs) ==> Unique(Upsert(cs, c, now))
  {
    var ds := Upsert(cs, c, now);
    var i, j := FirstIndex(cs, kind), FirstIndex(ds, kind);
    assert forall k | 0 <= k < |cs| :: ds[k].kind == cs[k].kind;
    assert i < |cs| ==> j == i;
    if i == |cs| {
      assert |ds| == |cs| + 1 ==> ds[|cs|] == c;
    }
  }

  // ---------------------------------------------------------------------------------------------
  // Histories of upserts

  datatype Event = Event(condition: Condition, now: Time)

  /** The list left by a history of upserts that starts from the empty list. */
  function After(es: seq<Event>): seq<Condition> {
    if es == [] then []
    else
      var e := es[|es| - 1];
      Upsert(After(es[..|es| - 1]), e.condition, e.now)
  }

  /** The upserts of one kind, in order. */
  function Of(es: seq<Event>, kind: Kind): (r: seq<Event>)
    ensures forall e | e in r :: e.condition.kind == kind
  {
    if es == [] then []
    else
      var e := es[|es| - 1];
      Of(es[..|es| - 1], kind) + if e.condition.kind == kind then [e] else []
  }

  /** The first event of the trailing run of equal statuses. */
  function TrailStart(es: seq<Event>): (i: nat)
    requires es != []
    ensures i < |es|
    ensures forall j | i <= j < |es| :: es[j].condition.status == es[|es| - 1].condition.status
    ensures i > 0 ==> es[i - 1].condition.status != es[|es| - 1].condition.status
  {
    if |es| == 1 then 0
    else if es[|es| - 2].condition.status != es[|es| - 1].condition.status then |es| - 1
    else TrailStart(es[..|es| - 1])
  }

  /** What a history of one kind's upserts must leave. */
  ghost predicate Summarises(c: Condition, own: seq<Event>)
    requires own != []
  {
    var last := own[|own| - 1];
    && c.kind == last.condition.kind
    && c.status == last.condition.status
    && c.reason == last.condition.reason
    && c.message == last.condition.message
    && c.transition == own[TrailStart(own)].condition.transition
    && c.heartbeat == if |own| == 1 then last.condition.heartbeat else last.now
  }

  /** One more upsert of the same kind. */
  lemma SummaryStep(c: Condition, own: seq<Event>, e: Event)
    requires own != [] && Summarises(c, own) && e.condition.kind == c.kind
    ensures Summarises(Refreshed(c, e.condition, e.now), own + [e])
  {
    var all := own + [e];
    assert all[..|all| - 1] == own;
    assert all[|all| - 2] == own[|own| - 1];
  }

  /** Over every history there is at most one condition of a kind; it carries the latest reason,
      message and status, and the transition time of the first upsert of the trailing run. */
  lemma {:induction false} HistoryOfUpserts(es: seq<Event>, kind: Kind)
    ensures Unique(After(es))
    ensures Of(es, kind) == [] ==> Find(After(es), kind).None?
    ensures Of(es, kind) != [] ==>
              Find(After(es), kind).Some? && Summarises(Find(After(es), kind).value, Of(es, kind))
  {
    if es != [] {
      var rest, e := es[..|es| - 1], es[|es| - 1];
      HistoryOfUpserts(rest, kind);
      UpsertFind(After(rest), e.condition, e.now, kind);
      if e.condition.kind == kind && Of(rest, kind) != [] {
        SummaryStep(Find(After(rest), kind).value, Of(rest, kind), e);
      } else if e.condition.kind != kind {
        assert Of(es, kind) == Of(rest, kind);
      }
    }
  }

  // ---------------------------------------------------------------------------------------------
  // The imperative operations

  method FindConditionOfType(cs: seq<Condition>, kind: Kind) returns (i: nat)
    ensures i == FirstIndex(cs, kind)
  {
    i := 0;
    while i < |cs|
      invariant i <= |cs|
      invariant forall j | 0 <= j < i :: cs[j].kind != kind
    {
      if cs[i].kind == kind {
        return;
      }
      i := i + 1;
    }
  }

  /** The scan looks at every Succeeded condition, not only the first. */
  method HasSucceededConditionOfReason(cs: seq<Condition>, reasons: seq<Reason>) returns (has: bool)
    ensures has <==> exists i | 0 <= i < |cs| :: cs[i].kind == Succeeded && cs[i].reason in reasons
    ensures Unique(cs) ==>
              (has <==> Find(cs, Succeeded).Some? && Find(cs, Succeeded).value.reason in reasons)
  {
    var i := 0;
    while i < |cs|
      invariant i <= |cs|
      invariant forall j | 0 <= j < i :: !(cs[j].kind == Succeeded && cs[j].reason in reasons)
    {
      if cs[i].kind == Succeeded {
        var k := 0;
        while k < |reasons|
          invariant k <= |reasons|
          invariant cs[i].reason !in reasons[..k]
        {
          if cs[i].reason == reasons[k] {
            assert Unique(cs) ==> FirstIndex(cs, Succeeded) == i;
            return true;
          }
          k := k + 1;
        }
      }
      i := i + 1;
    }
    return false;
  }

  /** The copy of the import's status on which conditions are changed before it is written back. */
  class StatusCopy {
    var conditions: seq<Condition>

    constructor (conditions: seq<Condition>)
      ensures this.conditions == conditions
    {
      this.conditions := conditions;
    }

    method UpsertCondition(condition: Condition, now: Time)
      modifies this
      ensures conditions == Upsert(old(conditions), condition, now)
    {
      var i := FindConditionOfType(conditions, condition.kind);
      if i < |conditions| {
        var existing := conditions[i].(message := condition.message, reason := condition.reason, heartbeat := now);
        if existing.status != condition.status {
          existing := existing.(status := condition.status, transition := condition.transition);
        }
        conditions := conditions[i := existing];
      } else {
        conditions := conditions + [condition];
      }
    }
  }
}
