/** The stored digest of a command's output and the Secret that keeps the output (captureJobOutput in
    executor.go): a Secret found in place is taken for this capture's own, so when do the two agree? */
module OutputRuns {
  import opened Prelude
  import opened SudoTypes
  import opened Lifecycle
  import opened Invariants
  import opened Stability
  import opened Api
  import opened Executor
  import opened Runs
  import opened PlaybookRuns
  import opened TeardownRun

  /** Texts no stored field tells apart. */
  predicate SameLog(svc: Service, t: string, t': string) {
    |t| == |t'| && svc.sha256(t) == svc.sha256(t')
  }

  ghost predicate OneText(logs: set<LogFact>, uid: Uid) {
    forall f, g :: f in logs && g in logs && f.owner == uid && g.owner == uid ==> f.text == g.text
  }

  /** Behind every stored result whose log was read there is a text that was read of the recorded Job and that
      the stored fields describe. An output Secret holds a text read of that Job too, and the fields describe
      it exactly when no field tells the two texts apart; so always, if every read showed the same. */
  lemma OutputMatchesExactlyWhen(svc: Service, run: seq<World>, labels: seq<Action>, k: nat, n: string) returns (log: LogFact)
    requires IsRun(svc, run, labels) && k < |run| && StoresResult(run[k])
    requires run[k].last.status.output.capture != CaptureFailed && n in run[k].outputs
    ensures
      var s, logs, kept := run[k].last.status, run[k].trail.logs, run[k].outputs[n];
      && log in logs && Some(log.owner) == s.exec.jobUid && Describes(svc, s.output, log.text)
      && kept in logs && kept.owner == log.owner
      && (Describes(svc, s.output, kept.text) <==> SameLog(svc, kept.text, log.text))
      && (OneText(logs, log.owner) ==> Describes(svc, s.output, kept.text))
    ensures
      var output, size := run[k].last.status.output, |log.text|;
      && output.sha256 == svc.sha256(log.text) && output.totalBytes == Some(size)
      && output.retainedBytes == Some(if size <= 1_044_480 then size else 1_044_480)
      && output.capture == (if size <= 1_044_480 then CaptureComplete else CaptureTruncated)
  {
    RunInv(svc, run, labels, k);
    var w, s := run[k], run[k].last.status;
    var uid := s.exec.jobUid.value;
    var f :| f in w.trail.exits && ResultOf(svc, f, w.trail.logs, uid, s.exitCode.value, s.output);
    log :| log in w.trail.logs && log.owner == uid && log.container == f.container && Describes(svc, s.output, log.text);
  }

  // ----- And they may differ -----

  function Read(uid: Uid, text: string): LogFact {
    LogFact(uid, "executor", text)
  }

  /** What a capture stores that read `text` and found a Secret of the name in place. */
  function Referring(svc: Service, text: string, name: string): Output {
    LogOutput(svc, text).(secretRef := name, delivery := DeliveryAvailable)
  }

  predicate Reporting(w: World, uid: Uid, code: int) {
    && !w.gone && w.last.status.phase == Approved && w.last.status.exec.jobUid == Some(uid)
    && w.trail.recorded == Some(uid) && !w.last.status.playbook.autoApproved
    && ExitFact(uid, "executor", code) in w.trail.exits && exists p :: p in w.pods && p.owner == uid
  }

  lemma HeldIsReporting(svc: Service, w: World, uid: Uid, code: int)
    requires Inv(svc, w) && TwoPhase(w, uid, code) && HeldOpen(w, uid, code) && NoResult(w)
    ensures Reporting(w, uid, code)
  {
    hide ResultInv, LinkInv, GateInv, TrailInv, SecretInv, JobInv;
    var p :| p in w.pods && p.owner == uid && p.job == w.last.status.exec.jobName;
    assert ExecutorExited(p, code);
    var c :| c in p.containers && c.name == "executor" && c.state.Terminated? && c.state.code == code;
    assert c in p.containers + p.inits;
    assert ExitFact(p.owner, c.name, c.state.code) in ExitsOf(w.pods);
  }

  lemma ReadStep(svc: Service, w: World, uid: Uid, code: int, text: string)
    requires Reporting(w, uid, code)
    ensures
      var a := Outside(LogRead(Read(uid, text)));
      var w' := Apply(svc, w, a);
      && Enabled(svc, w, a) && Reporting(w', uid, code) && Read(uid, text) in w'.trail.logs
      && w'.outputs == w.outputs && w.trail.logs <= w'.trail.logs
  {
  }

  lemma KeepStep(svc: Service, w: World, uid: Uid, code: int, text: string, name: string)
    requires Reporting(w, uid, code) && Read(uid, text) in w.trail.logs && name !in w.outputs
    ensures
      var a := Own(PutOutput(name, Read(uid, text)));
      var w' := Apply(svc, w, a);
      && Enabled(svc, w, a) && Reporting(w', uid, code)
      && w'.outputs == w.outputs[name := Read(uid, text)] && w'.trail == w.trail
  {
  }

  lemma CaptureStep(svc: Service, w: World, uid: Uid, code: int, text: string, name: string)
    requires Reporting(w, uid, code) && Read(uid, text) in w.trail.logs
    ensures
      var a := Write(NoEdit, Exec(Capture(code, Referring(svc, text, name))));
      var w' := Apply(svc, w, a);
      && Enabled(svc, w, a) && w'.outputs == w.outputs && StoresResult(w')
      && w'.last.status.output == Referring(svc, text, name)
  {
    assert ResultOf(svc, ExitFact(uid, "executor", code), w.trail.logs, uid, code, Referring(svc, text, name));
  }

  /** A capture keeps the log it read and dies; the next reads another text, finds the Secret, and stores the
      digest of its own: the Secret is said to be available, and is not what was digested. */
  lemma KeptAnotherText(svc: Service, w: World, r: Resolution, uid: Uid, code: int, name: string, first: string, second: string)
    returns (run: seq<World>, labels: seq<Action>)
    requires Initial(svc, w) && w.spec.playbook.None? && !svc.crossNamespace(w.spec) && w.pods == []
    requires svc.accepted(w.spec) && ResolvesTo(svc, w.spec, r) && svc.gate(w.spec, r.image).Some?
    requires uid !in w.trail.uids
    requires forall sr: Request, name {:trigger svc.jobFor(sr, name)} :: sr.spec == w.spec ==> svc.jobFor(sr, name).Some?
    requires !SameLog(svc, first, second)
    ensures IsRun(svc, run, labels) && run[0] == w
    ensures
      var w', output := run[|run| - 1], run[|run| - 1].last.status.output;
      && StoresResult(w') && output.delivery == DeliveryAvailable && output.secretRef == name && name in w'.outputs
      && w'.outputs[name].text == first && !Describes(svc, output, first) && Describes(svc, output, second)
  {
    hide IsRun, Initial, Enabled, Apply, TwoPhase, HeldOpen, NoResult, ResolvesTo, Reporting, Inv;
    run, labels := HeldRun(svc, w, r, uid, code);
    RunLengths(svc, run, labels);
    var n := |labels|;
    RunInv(svc, run, labels, n);
    HeldIsReporting(svc, run[n], uid, code);
    NothingKept(run[n]);
    ReadStep(svc, run[n], uid, code, first);
    run, labels := Then(svc, run, labels, Outside(LogRead(Read(uid, first))));
    KeepStep(svc, run[n + 1], uid, code, first, name);
    run, labels := Then(svc, run, labels, Own(PutOutput(name, Read(uid, first))));
    ReadStep(svc, run[n + 2], uid, code, second);
    run, labels := Then(svc, run, labels, Outside(LogRead(Read(uid, second))));
    CaptureStep(svc, run[n + 3], uid, code, second, name);
    run, labels := Then(svc, run, labels, Write(NoEdit, Exec(Capture(code, Referring(svc, second, name)))));
  }

  lemma NothingKept(w: World)
    requires NoResult(w)
    ensures w.outputs == map[]
  {
  }
}
