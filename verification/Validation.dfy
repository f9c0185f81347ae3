/** Turning validation failures into conditions and deciding whether the import may go on:
    pkg/providers/ovirt/validation/vm-import-validation.go and shouldFailWith in the controller. */
module Validation {
  import opened Wrappers
  import opened Conditions

  datatype Action = Log | Warn | Block

  datatype CheckFailure = CheckFailure(id: string, message: string)

  /** The check-to-action table; a check it does not list is only logged. */
  type Actions = map<string, Action>

  function ActionOf(actions: Actions, id: string): Action {
    if id in actions then actions[id] else Log
  }

  /** What the checks of one VM found; the lists that depend on an optional part of the VM are
      absent with it. */
  datatype Findings = Findings(
    networkMapping: Option<seq<CheckFailure>>,
    storageMapping: Option<seq<CheckFailure>>,
    vm: seq<CheckFailure>,
    nics: Option<seq<CheckFailure>>,
    disks: Option<seq<CheckFailure>>)
  {
    function Mapping(): seq<CheckFailure> {
      networkMapping.GetOr([]) + storageMapping.GetOr([])
    }

    function Rules(): seq<CheckFailure> {
      vm + nics.GetOr([]) + disks.GetOr([])
    }
  }

  function WithMessage(message: string, newMessage: string): string {
    if message == "" then newMessage else message + ", " + newMessage
  }

  /** The messages of the failures that call for an action, joined in order. */
  function Joined(actions: Actions, fs: seq<CheckFailure>, action: Action): string {
    if fs == [] then ""
    else
      var f := fs[|fs| - 1];
      var before := Joined(actions, fs[..|fs| - 1], action);
      if ActionOf(actions, f.id) == action then WithMessage(before, f.message) else before
  }

  /** Some failure calls for the action and has something to say. */
  predicate Reported(actions: Actions, fs: seq<CheckFailure>, action: Action) {
    exists f | f in fs :: ActionOf(actions, f.id) == action && f.message != ""
  }

  lemma {:induction false} JoinedIsEmptyIff(actions: Actions, fs: seq<CheckFailure>, action: Action)
    ensures Joined(actions, fs, action) != "" <==> Reported(actions, fs, action)
  {
    if fs != [] {
      var init, f := fs[..|fs| - 1], fs[|fs| - 1];
      JoinedIsEmptyIff(actions, init, action);
      assert fs == init + [f];
      assert f in fs;
      assert forall g | g in init :: g in fs;
    }
  }

  /** One failure adds its message if its check is listed with the action; one that is not listed is only
      logged. */
  lemma JoinedOfOne(actions: Actions, f: CheckFailure, action: Action)
    ensures Joined(actions, [f], action)
            == if (f.id in actions && actions[f.id] == action) || (f.id !in actions && action == Log)
               then f.message else ""
  {
    assert [f][..0] == [];
  }

  /** The messages of the failures that call for an action, each behind a comma and a space. */
  function Appended(actions: Actions, fs: seq<CheckFailure>, action: Action): string {
    if fs == [] then ""
    else
      (if ActionOf(actions, fs[0].id) == action then ", " + fs[0].message else "")
      + Appended(actions, fs[1..], action)
  }

  /** Every message is joined, in the order of the failures: those of later failures come behind what the
      earlier ones have to say, if that is anything. */
  lemma {:induction false} JoinedOfConcat(actions: Actions, a: seq<CheckFailure>, b: seq<CheckFailure>, action: Action)
    ensures var before := Joined(actions, a, action);
            Joined(actions, a + b, action)
            == if before == "" then Joined(actions, b, action) else before + Appended(actions, b, action)
  {
    hide Joined, Appended;
    if b == [] {
      assert a + b == a;
      NoneJoined(actions, action);
      assert Joined(actions, a, action) + "" == Joined(actions, a, action);
    } else {
      var init, f := b[..|b| - 1], b[|b| - 1];
      JoinedOfConcat(actions, a, init, action);
      JoinedOfThree(actions, a, init, f, action);
      assert b == init + [f];
    }
  }

  lemma NoneJoined(actions: Actions, action: Action)
    ensures Joined(actions, [], action) == "" && Appended(actions, [], action) == ""
  {}

  lemma JoinedOfThree(actions: Actions, a: seq<CheckFailure>, b: seq<CheckFailure>, f: CheckFailure, action: Action)
    requires var before := Joined(actions, a, action);
             Joined(actions, a + b, action)
             == if before == "" then Joined(actions, b, action) else before + Appended(actions, b, action)
    ensures var before := Joined(actions, a, action);
            Joined(actions, a + (b + [f]), action)
            == if before == "" then Joined(actions, b + [f], action) else before + Appended(actions, b + [f], action)
  {
    hide Joined, Appended, ActionOf;
    JoinedOfOneMore(actions, b, f, action);
    JoinedOfOneMore(actions, a + b, f, action);
    AppendedOfOneMore(actions, b, f, action);
    assert a + (b + [f]) == (a + b) + [f];
    if ActionOf(actions, f.id) == action {
      MessageBehind(Joined(actions, a, action), Appended(actions, b, action), f.message);
    }
  }

  lemma MessageBehind(before: string, appended: string, message: string)
    ensures before != "" ==>
              WithMessage(before + appended, message) == before + (appended + (", " + message))
  {}

  lemma JoinedOfOneMore(actions: Actions, fs: seq<CheckFailure>, f: CheckFailure, action: Action)
    ensures var before := Joined(actions, fs, action);
            Joined(actions, fs + [f], action)
            == if ActionOf(actions, f.id) == action then WithMessage(before, f.message) else before
  {
    assert (fs + [f])[..|fs|] == fs;
  }

  lemma {:induction false} AppendedOfOneMore(actions: Actions, fs: seq<CheckFailure>, f: CheckFailure, action: Action)
    ensures var before := Appended(actions, fs, action);
            Appended(actions, fs + [f], action)
            == if ActionOf(actions, f.id) == action then before + (", " + f.message) else before
  {
    if fs == [] {
      assert [f][1..] == [];
    } else {
      assert (fs + [f])[1..] == fs[1..] + [f];
      AppendedOfOneMore(actions, fs[1..], f, action);
    }
  }

  method ProcessFailures(actions: Actions, failures: seq<CheckFailure>) returns (warning: string, error: string)
    ensures warning == Joined(actions, failures, Warn)
    ensures error == Joined(actions, failures, Block)
  {
    warning, error := "", "";
    for i := 0 to |failures|
      invariant warning == Joined(actions, failures[..i], Warn)
      invariant error == Joined(actions, failures[..i], Block)
    {
      var failure := failures[i];
      assert failures[..i + 1][..i] == failures[..i];
      match ActionOf(actions, failure.id)
      case Log =>
      case Warn => warning := WithMessage(warning, failure.message);
      case Block => error := WithMessage(error, failure.message);
    }
    assert failures[..|failures|] == failures;
  }

  /** The status either condition gets from its failures. */
  function StatusFor(actions: Actions, failures: seq<CheckFailure>): Status {
    if Reported(actions, failures, Block) then False else True
  }

  /** The message of either condition: what blocks or, if nothing does, what warns. */
  predicate Tells(message: string, actions: Actions, failures: seq<CheckFailure>) {
    && (Reported(actions, failures, Block) ==> message == Joined(actions, failures, Block))
    && (!Reported(actions, failures, Block) && Reported(actions, failures, Warn) ==>
          message == Joined(actions, failures, Warn))
  }

  method ProcessMappingValidationFailures(actions: Actions, failures: seq<CheckFailure>, now: Time)
    returns (c: Condition)
    ensures c.kind == Valid && c.status == StatusFor(actions, failures)
    ensures c.reason == if Reported(actions, failures, Block) then IncompleteMappingRules
                        else if Reported(actions, failures, Warn) then ValidationReportedWarnings
                        else ValidationCompleted
    ensures Tells(c.message, actions, failures)
  {
    var warning, error := ProcessFailures(actions, failures);
    JoinedIsEmptyIff(actions, failures, Block);
    JoinedIsEmptyIff(actions, failures, Warn);
    if error != "" {
      return NewCondition(Valid, IncompleteMappingRules, error, False, now);
    } else if warning != "" {
      return NewCondition(Valid, ValidationReportedWarnings, warning, True, now);
    }
    return NewCondition(Valid, ValidationCompleted, "Validation completed successfully", True, now);
  }

  method ProcessValidationFailures(actions: Actions, failures: seq<CheckFailure>, now: Time)
    returns (c: Condition)
    ensures c.kind == MappingRulesVerified && c.status == StatusFor(actions, failures)
    ensures c.reason == if Reported(actions, failures, Block) then MappingRulesVerificationFailed
                        else if Reported(actions, failures, Warn) then MappingRulesVerificationReportedWarnings
                        else MappingRulesVerificationCompleted
    ensures Tells(c.message, actions, failures)
  {
    var warning, error := ProcessFailures(actions, failures);
    JoinedIsEmptyIff(actions, failures, Block);
    JoinedIsEmptyIff(actions, failures, Warn);
    if error != "" {
      return NewCondition(MappingRulesVerified, MappingRulesVerificationFailed, error, False, now);
    } else if warning != "" {
      return NewCondition(MappingRulesVerified, MappingRulesVerificationReportedWarnings, warning, True, now);
    }
    return NewCondition(MappingRulesVerified, MappingRulesVerificationCompleted, "All mapping rules checks passed",
                        True, now);
  }

  /** Two conditions, one from the mapping checks and one from the VM, NIC and disk rules. */
  method Validate(actions: Actions, findings: Findings, now: Time) returns (results: seq<Condition>)
    ensures |results| == 2
    ensures results[0].kind == Valid && results[0].status == StatusFor(actions, findings.Mapping())
    ensures results[1].kind == MappingRulesVerified && results[1].status == StatusFor(actions, findings.Rules())
    ensures results[0].reason
            == if results[0].status == False then IncompleteMappingRules
               else if Reported(actions, findings.Mapping(), Warn) then ValidationReportedWarnings
               else ValidationCompleted
    ensures results[1].reason
            == if results[1].status == False then MappingRulesVerificationFailed
               else if Reported(actions, findings.Rules(), Warn) then MappingRulesVerificationReportedWarnings
               else MappingRulesVerificationCompleted
    ensures Tells(results[0].message, actions, findings.Mapping())
    ensures Tells(results[1].message, actions, findings.Rules())
  {
    var failures: seq<CheckFailure> := [];
    if findings.networkMapping.Some? {
      failures := failures + findings.networkMapping.value;
    }
    if findings.storageMapping.Some? {
      failures := failures + findings.storageMapping.value;
    }
    assert failures == findings.Mapping();
    var mappingResult := ProcessMappingValidationFailures(actions, failures, now);
    failures := findings.vm;
    if findings.nics.Some? {
      failures := failures + findings.nics.value;
    }
    if findings.disks.Some? {
      failures := failures + findings.disks.value;
    }
    assert failures == findings.Rules();
    var rulesResult := ProcessValidationFailures(actions, failures, now);
    return [mappingResult, rulesResult];
  }

  method ShouldFailWith(conditions: seq<Condition>) returns (valid: bool, message: string)
    ensures valid <==> forall c | c in conditions :: c.status != False
    ensures valid ==> message == ""
    ensures forall c | c in conditions && c.status == False && c.message != "" :: message != ""
  {
    valid, message := true, "";
    for i := 0 to |conditions|
      invariant valid <==> forall c | c in conditions[..i] :: c.status != False
      invariant valid ==> message == ""
      invariant forall c | c in conditions[..i] && c.status == False && c.message != "" :: message != ""
    {
      assert conditions[..i + 1] == conditions[..i] + [conditions[i]];
      if conditions[i].status == False {
        message := WithMessage(message, conditions[i].message);
        valid := false;
      }
    }
    assert conditions[..|conditions|] == conditions;
  }

  lemma ReportedSplits(actions: Actions, a: seq<CheckFailure>, b: seq<CheckFailure>, action: Action)
    ensures Reported(actions, a + b, action) <==> Reported(actions, a, action) || Reported(actions, b, action)
  {
    if Reported(actions, a, action) {
      var f :| f in a && ActionOf(actions, f.id) == action && f.message != "";
      assert f in a + b;
    }
    if Reported(actions, b, action) {
      var f :| f in b && ActionOf(actions, f.id) == action && f.message != "";
      assert f in a + b;
    }
  }

  /** When every failure has a message, "reported" is just "called for". */
  lemma ReportedWithMessages(actions: Actions, fs: seq<CheckFailure>, action: Action)
    requires forall f | f in fs :: f.message != ""
    ensures Reported(actions, fs, action) <==> exists f | f in fs :: ActionOf(actions, f.id) == action
  {
    if f :| f in fs && ActionOf(actions, f.id) == action {
      assert f.message != "";
    }
  }

  /** The gate: the two conditions let the import go on exactly when no check of any kind reported a
      failure that blocks; and if all failures have messages, exactly when none has the action block. */
  lemma GateIsExact(actions: Actions, findings: Findings, results: seq<Condition>)
    requires |results| == 2
    requires results[0].status == StatusFor(actions, findings.Mapping())
    requires results[1].status == StatusFor(actions, findings.Rules())
    ensures var all := findings.Mapping() + findings.Rules();
            && ((forall c | c in results :: c.status != False) <==> !Reported(actions, all, Block))
            && ((forall f | f in all :: f.message != "") ==>
                  ((forall c | c in results :: c.status != False)
                      <==> forall f | f in all :: f.id in actions ==> actions[f.id] != Block))
            && (forall f :: f in all <==>
                            || (findings.networkMapping.Some? && f in findings.networkMapping.value)
                            || (findings.storageMapping.Some? && f in findings.storageMapping.value)
                            || f in findings.vm
                            || (findings.nics.Some? && f in findings.nics.value)
                            || (findings.disks.Some? && f in findings.disks.value))
  {
    var all := findings.Mapping() + findings.Rules();
    assert results == [results[0], results[1]];
    ReportedSplits(actions, findings.Mapping(), findings.Rules(), Block);
    if forall f | f in all :: f.message != "" {
      ReportedWithMessages(actions, all, Block);
    }
  }

  /** A blocking failure without a message is let through. */
  lemma SilentBlockIsLetThrough()
    ensures exists actions: Actions, fs: seq<CheckFailure> ::
              |fs| == 1 && ActionOf(actions, fs[0].id) == Block && !Reported(actions, fs, Block)
  {
    var actions: Actions := map["disk" := Block];
    var fs := [CheckFailure("disk", "")];
    assert ActionOf(actions, fs[0].id) == Block && !Reported(actions, fs, Block);
  }
}
