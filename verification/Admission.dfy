/** Defaulting and validation of policies and policy servers before they are stored. */
module Admission {
  import opened Common
  import opened Model

  function DefaultPolicy(cfg: Config, p: Policy): Policy {
    var spec := if p.spec.policyServer == "" then p.spec.(policyServer := cfg.defaultPolicyServer) else p.spec;
    p.(spec := spec, finalizers := if p.deleting then p.finalizers else p.finalizers + {Kubewarden})
  }

  function DefaultServer(p: PolicyServer): PolicyServer {
    if p.deleting then p else p.(finalizers := p.finalizers + {Kubewarden})
  }

  predicate ValidPolicyUpdate(before: PolicySpec, after: PolicySpec) {
    && after.policyServer == before.policyServer
    && !(after.mode == "monitor" && before.mode == "protect")
  }

  /** A create: no deletion mark, empty status, defaulted. */
  function AdmitPolicyCreate(cfg: Config, spec: PolicySpec, finalizers: set<Finalizer>): Policy {
    DefaultPolicy(cfg, Policy(false, finalizers, spec, NEW_STATUS))
  }

  /** An update replaces spec and finalizers; None when validation refuses it. */
  function AdmitPolicyUpdate(cfg: Config, before: Policy, spec: PolicySpec, finalizers: set<Finalizer>): Option<Policy> {
    var p := DefaultPolicy(cfg, before.(spec := spec, finalizers := finalizers));
    if ValidPolicyUpdate(before.spec, p.spec) then Some(p) else None
  }

  // ------------------------------------------------------ histories of one policy

  /** What a user sends: the mode may be missing, and the schema then supplies "protect". */
  datatype Submission = Submission(spec: PolicySpec, modeGiven: bool, finalizers: set<Finalizer>) {
    function Defaulted(): PolicySpec {
      if modeGiven then spec else spec.(mode := "protect")
    }

    predicate FitsSchema() {
      modeGiven ==> spec.mode in {"protect", "monitor"}
    }
  }

  /** `history[i + 1]` is what the i-th accepted submission made of `history[i]`. */
  ghost predicate AcceptedHistory(cfg: Config, history: seq<Policy>, submissions: seq<Submission>) {
    && |history| == |submissions| + 1
    && forall i :: 0 <= i < |submissions| ==>
         AdmitPolicyUpdate(cfg, history[i], submissions[i].Defaulted(), submissions[i].finalizers) == Some(history[i + 1])
  }

  /** Over every accepted history the server never changes, and "protect" is never left. */
  lemma {:induction false} HistoryKeepsServerAndProtect(
    cfg: Config, history: seq<Policy>, submissions: seq<Submission>, i: nat, j: nat)
    requires AcceptedHistory(cfg, history, submissions)
    requires forall x :: 0 <= x < |submissions| ==> submissions[x].FitsSchema()
    requires i <= j < |history|
    ensures history[j].spec.policyServer == history[i].spec.policyServer
    ensures history[i].spec.mode == "protect" ==> history[j].spec.mode == "protect"
    decreases j - i
  {
    if i < j {
      HistoryKeepsServerAndProtect(cfg, history, submissions, i, j - 1);
      assert submissions[j - 1].FitsSchema();
      assert AdmitPolicyUpdate(cfg, history[j - 1], submissions[j - 1].Defaulted(), submissions[j - 1].finalizers)
             == Some(history[j]);
    }
  }

  /**
   * Without the schema "protect" is left exactly through a mode that is neither: over an accepted history from "protect"
   * to "monitor" some policy in between has such a mode.
   */
  lemma {:induction false} MonitorOnlyThroughOtherModes(
    cfg: Config, history: seq<Policy>, submissions: seq<Submission>, i: nat, j: nat) returns (x: nat)
    requires AcceptedHistory(cfg, history, submissions) && i <= j < |history|
    requires history[i].spec.mode == "protect" && history[j].spec.mode == "monitor"
    ensures i < x < j && history[x].spec.mode !in {"protect", "monitor"}
    decreases j
  {
    assert AdmitPolicyUpdate(cfg, history[j - 1], submissions[j - 1].Defaulted(), submissions[j - 1].finalizers)
           == Some(history[j]);
    if history[j - 1].spec.mode == "monitor" {
      x := MonitorOnlyThroughOtherModes(cfg, history, submissions, i, j - 1);
    } else {
      x := j - 1;
    }
  }

  /** And every such mode is a way: with it, and with no other, two accepted updates lead from "protect" to "monitor". */
  lemma OtherModesLeaveProtectExactly(cfg: Config, p: Policy, mode: string)
    requires !p.deleting && p.spec.mode == "protect"
    ensures var first := Submission(p.spec.(mode := mode), true, p.finalizers);
            var second := Submission(p.spec.(mode := "monitor"), true, p.finalizers);
            (exists history: seq<Policy> :: history != [] && history[0] == p &&
               AcceptedHistory(cfg, history, [first, second])) <==>
            mode !in {"protect", "monitor"} && (p.spec.policyServer != "" || cfg.defaultPolicyServer == "")
  {
    var first := Submission(p.spec.(mode := mode), true, p.finalizers);
    var second := Submission(p.spec.(mode := "monitor"), true, p.finalizers);
    var p1 := DefaultPolicy(cfg, p.(spec := first.Defaulted()));
    var p2 := DefaultPolicy(cfg, p1.(spec := second.Defaulted(), finalizers := p.finalizers));
    if mode !in {"protect", "monitor"} && (p.spec.policyServer != "" || cfg.defaultPolicyServer == "") {
      assert AcceptedHistory(cfg, [p, p1, p2], [first, second]);
    }
    if history: seq<Policy> :| history != [] && history[0] == p && AcceptedHistory(cfg, history, [first, second]) {
      assert [first, second][0] == first && [first, second][1] == second;
      assert AdmitPolicyUpdate(cfg, history[0], first.Defaulted(), first.finalizers) == Some(history[1]);
      assert AdmitPolicyUpdate(cfg, history[1], second.Defaulted(), second.finalizers) == Some(history[2]);
    }
  }

  /** The server a policy will have once defaulted. */
  function DefaultedServer(cfg: Config, spec: PolicySpec): string {
    if spec.policyServer == "" then cfg.defaultPolicyServer else spec.policyServer
  }

  /** Refused are exactly updates that, once defaulted, change the server, or go from "protect" to "monitor". */
  lemma RefusedUpdates(cfg: Config, before: Policy, spec: PolicySpec, finalizers: set<Finalizer>)
    ensures AdmitPolicyUpdate(cfg, before, spec, finalizers).None? <==>
            || DefaultedServer(cfg, spec) != before.spec.policyServer
            || (before.spec.mode == "protect" && spec.mode == "monitor")
  {
  }
}
