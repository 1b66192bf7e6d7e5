/** The gate's policy engine (internal/policy/engine.go): every policy runs, every error is kept, and the
    image passes only if all of them ran and passed. */
module PolicyEngine {
  import opened Basics

  datatype Finding = Finding(cve: string, severity: string, pkg: string, version: string, fixed: string)

  datatype AgeInfo = AgeInfo(known: bool, created: int, ageDays: int, thresholdDays: int, compliant: bool)

  datatype Verdict = Verdict(
    passed: bool,
    reasons: seq<string>,
    findings: seq<Finding>,
    scannerDb: string,
    age: Option<AgeInfo>)

  // The assembled image a policy evaluates; created is None when its timestamp could not be read.
  datatype StagedImage = StagedImage(
    repo: string, tag: string, digest: string, fsPath: string, ociPath: string, created: Option<int>, prefix: string)

  datatype Policy = Policy(name: string, evaluate: StagedImage -> Result<Verdict, string>)

  // What one policy answered for this image.
  datatype Answer = Answer(name: string, result: Result<Verdict, string>) {
    predicate Passes() { result.Ok? && result.value.passed }
    predicate Rejects() { result.Ok? && !result.value.passed }
  }

  datatype GateResult = GateResult(
    passed: bool,
    verdicts: map<string, Verdict>,
    findings: seq<Finding>,
    scannerDb: string,
    age: Option<AgeInfo>,
    unenforced: seq<string>)

  // Every policy's answer, in the engine's order.
  function AnswersOf(policies: seq<Policy>, img: StagedImage): seq<Answer> {
    seq(|policies|, i requires 0 <= i < |policies| => Answer(policies[i].name, policies[i].evaluate(img)))
  }

  // The verdict the map ends up with under a name: the last one that was written.
  function LastVerdict(answers: seq<Answer>, name: string): Option<Verdict> {
    if answers == [] then None
    else
      var a := answers[|answers| - 1];
      if a.name == name && a.result.Ok? then Some(a.result.value) else LastVerdict(answers[..|answers| - 1], name)
  }

  function Errors(answers: seq<Answer>): seq<(string, string)> {
    if answers == [] then []
    else
      var a := answers[|answers| - 1];
      Errors(answers[..|answers| - 1]) + if a.result.Err? then [(a.name, a.result.error)] else []
  }

  const CLEAN := GateResult(true, map[], [], "", None, [])

  // The result with one more answer in it.
  function Absorb(res: GateResult, a: Answer): GateResult {
    match a.result
    case Err(_) => res.(passed := false)
    case Ok(v) =>
      GateResult(
        res.passed && v.passed,
        res.verdicts[a.name := v],
        res.findings + v.findings,
        if v.scannerDb != "" then v.scannerDb else res.scannerDb,
        if v.age.Some? then v.age else res.age,
        if v.passed then res.unenforced + v.reasons else res.unenforced)
  }

  function ResultOf(answers: seq<Answer>): GateResult {
    if answers == [] then CLEAN else Absorb(ResultOf(answers[..|answers| - 1]), answers[|answers| - 1])
  }

  ghost predicate AllPass(answers: seq<Answer>) { forall a :: a in answers ==> a.Passes() }

  predicate AllRan(answers: seq<Answer>) { forall a :: a in answers ==> a.result.Ok? }

  // The verdict map holds, per name, the last verdict of that name.
  ghost predicate Verdicts(answers: seq<Answer>, verdicts: map<string, Verdict>) {
    && (forall n :: n in verdicts <==> LastVerdict(answers, n).Some?)
    && (forall n :: n in verdicts ==> LastVerdict(answers, n) == Some(verdicts[n]))
  }

  class Engine {
    const policies: seq<Policy>

    constructor (policies: seq<Policy>)
      ensures this.policies == policies
    {
      this.policies := policies;
    }

    // No policy is left out because another failed or rejected.
    method Run(img: StagedImage) returns (res: GateResult, errors: seq<(string, string)>)
      ensures res == ResultOf(AnswersOf(policies, img))
      ensures errors == Errors(AnswersOf(policies, img))
      ensures res.passed <==>
                forall i :: 0 <= i < |policies| ==>
                  policies[i].evaluate(img).Ok? && policies[i].evaluate(img).value.passed
      ensures errors == [] <==> forall i :: 0 <= i < |policies| ==> policies[i].evaluate(img).Ok?
      ensures res.findings == Found(policies, img)
    {
      ghost var answers := AnswersOf(policies, img);
      res, errors := CLEAN, [];
      var i := 0;
      while i < |policies|
        invariant 0 <= i <= |policies|
        invariant res == ResultOf(answers[..i])
        invariant errors == Errors(answers[..i])
      {
        var p := policies[i];
        var verdict := p.evaluate(img);
        assert answers[..i + 1][..i] == answers[..i] && answers[i] == Answer(p.name, verdict);
        i := i + 1;
        if verdict.Err? {
          errors := errors + [(p.name, verdict.error)];
          res := res.(passed := false);
          continue;
        }
        var v := verdict.value;
        res := res.(verdicts := res.verdicts[p.name := v]);
        if !v.passed {
          res := res.(passed := false);
        } else if |v.reasons| > 0 {
          res := res.(unenforced := res.unenforced + v.reasons);
        }
        res := res.(findings := res.findings + v.findings);
        if v.scannerDb != "" { res := res.(scannerDb := v.scannerDb); }
        if v.age.Some? { res := res.(age := v.age); }
      }
      assert answers[..i] == answers;
      if |errors| > 0 {
        ErrorsBlock(answers);
        res := res.(passed := false);
      }
      WhatPoliciesSay(policies, img);
    }
  }

  // What the policies that ran have found, in the engine's order.
  function Found(policies: seq<Policy>, img: StagedImage): seq<Finding> {
    if policies == [] then []
    else
      (match policies[0].evaluate(img) case Ok(v) => v.findings case Err(_) => []) + Found(policies[1..], img)
  }

  lemma {:induction false} FoundSnoc(policies: seq<Policy>, p: Policy, img: StagedImage)
    ensures Found(policies + [p], img) ==
            Found(policies, img) + (match p.evaluate(img) case Ok(v) => v.findings case Err(_) => [])
  {
    if policies == [] {
      assert [p][1..] == [];
    } else {
      assert (policies + [p])[1..] == policies[1..] + [p];
      FoundSnoc(policies[1..], p, img);
    }
  }

  lemma {:induction false} EveryFindingIsKept(policies: seq<Policy>, img: StagedImage)
    ensures ResultOf(AnswersOf(policies, img)).findings == Found(policies, img)
  {
    if policies != [] {
      var n := |policies| - 1;
      EveryFindingIsKept(policies[..n], img);
      assert policies == policies[..n] + [policies[n]];
      FoundSnoc(policies[..n], policies[n], img);
      assert AnswersOf(policies, img)[..n] == AnswersOf(policies[..n], img);
    }
  }

  /** Every policy is asked about the image, first to last: it passes exactly when each one ran and passed, no
      error is returned exactly when each one ran, and every finding of every one that ran is in the result. */
  lemma WhatPoliciesSay(policies: seq<Policy>, img: StagedImage)
    ensures var answers := AnswersOf(policies, img);
            && (ResultOf(answers).passed <==>
                  forall i :: 0 <= i < |policies| ==>
                    policies[i].evaluate(img).Ok? && policies[i].evaluate(img).value.passed)
            && (Errors(answers) == [] <==> forall i :: 0 <= i < |policies| ==> policies[i].evaluate(img).Ok?)
            && ResultOf(answers).findings == Found(policies, img)
  {
    var answers := AnswersOf(policies, img);
    WhatTheResultMeans(answers);
    ErrorsBlock(answers);
    EveryFindingIsKept(policies, img);
    forall i | 0 <= i < |policies| ensures answers[i] in answers && answers[i].result == policies[i].evaluate(img) {}
  }

  /** Nothing that went unenforced is dropped or made up, and neither is an error. */
  lemma {:induction false} NothingIsDropped(answers: seq<Answer>)
    ensures forall x :: x in ResultOf(answers).unenforced <==>
                        exists a :: a in answers && a.Passes() && x in a.result.value.reasons
    ensures forall e :: e in Errors(answers) <==>
                        exists a :: a in answers && a.result.Err? && e == (a.name, a.result.error)
  {
    if answers != [] {
      var n := |answers| - 1;
      NothingIsDropped(answers[..n]);
      assert answers == answers[..n] + [answers[n]];
      assert forall a :: a in answers <==> a in answers[..n] || a == answers[n];
    }
  }

  // What one answer reports of the scanner's database, and of the image's age.
  function DbOf(a: Answer): string { if a.result.Ok? then a.result.value.scannerDb else "" }

  function AgeIn(a: Answer): Option<AgeInfo> { if a.result.Ok? then a.result.value.age else None }

  /** The scanner database of the result is the last one that a policy reported. */
  lemma {:induction false} LastDatabase(answers: seq<Answer>)
    ensures var db := ResultOf(answers).scannerDb;
            if db == "" then forall a :: a in answers ==> DbOf(a) == ""
            else exists i :: 0 <= i < |answers| && DbOf(answers[i]) == db
                             && forall k :: i < k < |answers| ==> DbOf(answers[k]) == ""
  {
    if answers != [] {
      var n := |answers| - 1;
      var before := answers[..n];
      LastDatabase(before);
      assert answers == before + [answers[n]];
      if DbOf(answers[n]) == "" && ResultOf(answers).scannerDb != "" {
        var i :| 0 <= i < n && DbOf(before[i]) == ResultOf(before).scannerDb
                 && forall k :: i < k < n ==> DbOf(before[k]) == "";
        assert forall k :: i < k < n ==> answers[k] == before[k];
        assert DbOf(answers[i]) == ResultOf(answers).scannerDb;
      }
    }
  }

  /** And so is its age. */
  lemma {:induction false} LastAge(answers: seq<Answer>)
    ensures var age := ResultOf(answers).age;
            if age.None? then forall a :: a in answers ==> AgeIn(a).None?
            else exists i :: 0 <= i < |answers| && AgeIn(answers[i]) == age
                             && forall k :: i < k < |answers| ==> AgeIn(answers[k]).None?
  {
    if answers != [] {
      var n := |answers| - 1;
      var before := answers[..n];
      LastAge(before);
      assert answers == before + [answers[n]];
      if AgeIn(answers[n]).None? && ResultOf(answers).age.Some? {
        var i :| 0 <= i < n && AgeIn(before[i]) == ResultOf(before).age
                 && forall k :: i < k < n ==> AgeIn(before[k]).None?;
        assert forall k :: i < k < n ==> answers[k] == before[k];
        assert AgeIn(answers[i]) == ResultOf(answers).age;
      }
    }
  }

  lemma {:induction false} ErrorsBlock(answers: seq<Answer>)
    ensures Errors(answers) == [] <==> AllRan(answers)
    ensures Errors(answers) != [] ==> !ResultOf(answers).passed
  {
    if answers != [] {
      ErrorsBlock(answers[..|answers| - 1]);
      OneMore(answers, |answers| - 1);
      assert answers[..|answers|] == answers;
    }
  }

  ghost predicate Observed(answers: seq<Answer>) {
    exists a :: a in answers && a.Passes() && a.result.value.reasons != []
  }

  /** The image passes exactly when every policy ran and passed; each name keeps its last verdict; and
      findings that went unenforced are told apart from a clean scan. */
  lemma {:induction false} WhatTheResultMeans(answers: seq<Answer>)
    ensures ResultOf(answers).passed <==> AllPass(answers)
    ensures Verdicts(answers, ResultOf(answers).verdicts)
    ensures ResultOf(answers).unenforced != [] <==> Observed(answers)
  {
    if answers != [] {
      var n := |answers| - 1;
      WhatTheResultMeans(answers[..n]);
      OneMore(answers, n);
      assert answers[..|answers|] == answers == answers[..n] + [answers[n]];
      forall a ensures a in answers <==> a in answers[..n] || a == answers[n] {}
    }
  }

  lemma OneMore(answers: seq<Answer>, i: nat)
    requires i < |answers|
    ensures answers[..i + 1] == answers[..i] + [answers[i]] && answers[..i + 1][..i] == answers[..i]
    ensures AllPass(answers[..i + 1]) <==> AllPass(answers[..i]) && answers[i].Passes()
    ensures AllRan(answers[..i + 1]) <==> AllRan(answers[..i]) && answers[i].result.Ok?
  {
    forall a ensures a in answers[..i + 1] <==> a in answers[..i] || a == answers[i] {
      assert answers[..i + 1] == answers[..i] + [answers[i]];
    }
  }

  /* ---- what the verdict map can be read for ---- */

  function RejectedNames(verdicts: map<string, Verdict>): set<string> {
    set n | n in verdicts && !verdicts[n].passed
  }

  ghost function Rejecting(answers: seq<Answer>): set<string> {
    set a | a in answers && a.Rejects() :: a.name
  }

  ghost predicate DistinctNames(answers: seq<Answer>) {
    forall i, j :: 0 <= i < j < |answers| ==> answers[i].name != answers[j].name
  }


  lemma {:induction false} LastVerdictAt(answers: seq<Answer>, name: string)
    ensures LastVerdict(answers, name).None? ==>
              forall i :: 0 <= i < |answers| && answers[i].name == name ==> answers[i].result.Err?
    ensures LastVerdict(answers, name).Some? ==>
              exists i :: 0 <= i < |answers| && IsLast(answers, name, i)
                          && answers[i].result == Ok(LastVerdict(answers, name).value)
  {
    if answers != [] {
      var n := |answers| - 1;
      if !(answers[n].name == name && answers[n].result.Ok?) {
        LastVerdictAt(answers[..n], name);
        if LastVerdict(answers, name).Some? {
          var i :| 0 <= i < n && IsLast(answers[..n], name, i)
                   && answers[..n][i].result == Ok(LastVerdict(answers[..n], name).value);
          assert IsLast(answers, name, i);
        }
      } else {
        assert IsLast(answers, name, n);
      }
    }
  }

  // Position i holds the last verdict of that name.
  ghost predicate IsLast(answers: seq<Answer>, name: string, i: nat)
    requires i < |answers|
  {
    && answers[i].name == name && answers[i].result.Ok?
    && forall k :: i < k < |answers| && answers[k].name == name ==> answers[k].result.Err?
  }

  /** The map names exactly the rejecting policies, if and only if every name that rejected at all rejected
      in its last verdict too. Distinct names are enough. */
  lemma RejectionsAreNamed(answers: seq<Answer>, verdicts: map<string, Verdict>)
    requires Verdicts(answers, verdicts)
    ensures RejectedNames(verdicts) <= Rejecting(answers)
    ensures RejectedNames(verdicts) == Rejecting(answers) <==>
            forall i, n ::
              0 <= i < |answers| && answers[i].Rejects() && 0 <= n < |answers| && IsLast(answers, answers[i].name, n)
              ==> answers[n].Rejects()
    ensures DistinctNames(answers) ==> RejectedNames(verdicts) == Rejecting(answers)
  {
    forall n | n in RejectedNames(verdicts) ensures n in Rejecting(answers) {
      LastVerdictAt(answers, n);
    }
    var kept := forall i, n ::
          0 <= i < |answers| && answers[i].Rejects() && 0 <= n < |answers| && IsLast(answers, answers[i].name, n)
          ==> answers[n].Rejects();
    if kept {
      forall a | a in answers && a.Rejects() ensures a.name in RejectedNames(verdicts) {
        var i :| 0 <= i < |answers| && answers[i] == a;
        LastVerdictAt(answers, a.name);
      }
    }
    if RejectedNames(verdicts) == Rejecting(answers) {
      forall i, n | 0 <= i < |answers| && answers[i].Rejects()
          && 0 <= n < |answers| && IsLast(answers, answers[i].name, n)
        ensures answers[n].Rejects()
      {
        assert answers[i].name in Rejecting(answers);
        LastVerdictAt(answers, answers[i].name);
        var m :| 0 <= m < |answers| && IsLast(answers, answers[i].name, m)
                 && answers[m].result == Ok(LastVerdict(answers, answers[i].name).value);
        assert m == n;
      }
    }
  }

  /** Two policies under one name, the second passing: the image is rejected and no rejection is named. */
  lemma SharedNameHidesARejection(name: string, reject: Verdict, pass: Verdict, verdicts: map<string, Verdict>)
    requires !reject.passed && pass.passed
    requires Verdicts([Answer(name, Ok(reject)), Answer(name, Ok(pass))], verdicts)
    ensures !AllPass([Answer(name, Ok(reject)), Answer(name, Ok(pass))]) && RejectedNames(verdicts) == {}
  {
    var answers := [Answer(name, Ok(reject)), Answer(name, Ok(pass))];
    assert answers[0] in answers;
    forall n | n in verdicts ensures verdicts[n].passed {
      LastVerdictAt(answers, n);
      assert LastVerdict(answers, name) == Some(pass);
    }
  }
}
