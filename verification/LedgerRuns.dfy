/** Every run of the target ledger, with a stop between any two durable writes.

    `run` holds the directory lock across its effect, so while an attempt is active every
    other ledger call fails without touching the directory. Dropping the attempt models a
    crash, a raised effect and a raised write alike.
 */
module LedgerRuns {
  import opened Wrappers
  import opened Ledger

  datatype Stage = Intended | Running | Returned(result: Value)
  datatype Active = Active(request: Request, stage: Stage)

  /** The directory, the lock holder, and the effects begun and ended so far, oldest first. */
  datatype Target = Target(files: Files, active: Option<Active>, starts: seq<Request>, completions: seq<Request>)

  datatype Action =
    | Fence(nonce: string, request: Request, fate: Fate)
    | Run(nonce: string, request: Request, fate: Fate)
    | EffectBegins
    | EffectReturns(value: Value)
    | WriteReceipt(fate: Fate)
    | Stop

  const EMPTY := Target(map[], None, [], [])

  /** One step; an action that the state does not allow changes nothing. */
  function Step(t: Target, a: Action): Target {
    match a
    case Fence(nonce, request, fate) =>
      if t.active.Some? then t else t.(files := FenceCall(t.files, nonce, request, fate).0)
    case Run(nonce, request, fate) =>
      if t.active.Some? || !Admit(t.files, nonce, request).Start? then t
      else t.(files := Store(t.files, IntentName(nonce), RequestRecord(request), fate),
              active := if fate.Written? then Some(Active(request, Intended)) else None)
    case EffectBegins =>
      if t.active.Some? && t.active.value.stage.Intended? then
        t.(active := Some(t.active.value.(stage := Running)), starts := t.starts + [t.active.value.request])
      else t
    case EffectReturns(value) =>
      if t.active.Some? && t.active.value.stage.Running? then
        t.(active := Some(t.active.value.(stage := Returned(value))),
           completions := t.completions + [t.active.value.request])
      else t
    case WriteReceipt(fate) =>
      if t.active.Some? && t.active.value.stage.Returned? then
        var request, result := t.active.value.request, t.active.value.stage.result;
        t.(files := Store(t.files, ReceiptName(request.nonce), ReceiptRecord(request, result), fate), active := None)
      else t
    case Stop => t.(active := None)
  }

  function Execute(t: Target, actions: seq<Action>): Target
    decreases actions
  {
    if actions == [] then t else Execute(Step(t, actions[0]), actions[1..])
  }

  // ----- The invariant -----

  /** The attempt has an intact intent and an intact receipt for the same request. */
  ghost predicate Settled(files: Files, nonce: string) {
    && IntentName(nonce) in files && ReceiptName(nonce) in files
    && files[ReceiptName(nonce)].ReceiptRecord? && !files[ReceiptName(nonce)].result.NotMapping?
    && files[IntentName(nonce)] == RequestRecord(files[ReceiptName(nonce)].request)
  }

  /** An intent that no intact receipt answers. */
  ghost predicate Open(files: Files, nonce: string) {
    IntentName(nonce) in files && !Settled(files, nonce)
  }

  ghost predicate NamesSafe(files: Files) {
    && (forall name :: name in files ==> !name.Stray? && Hex(name.nonce, 32))
    && (forall nonce :: FenceName(nonce) in files ==> IntentName(nonce) !in files && ReceiptName(nonce) !in files)
    && (forall nonce :: ReceiptName(nonce) in files ==> IntentName(nonce) in files)
    && (forall nonce :: ReceiptName(nonce) in files && files[ReceiptName(nonce)].ReceiptRecord? ==>
          files[IntentName(nonce)] == RequestRecord(files[ReceiptName(nonce)].request))
    && (forall nonce :: IntentName(nonce) in files && files[IntentName(nonce)].RequestRecord? ==>
          ValidRequest(nonce, files[IntentName(nonce)].request))
    && (forall nonce :: ReceiptName(nonce) in files && files[ReceiptName(nonce)].RequestRecord? ==> false)
  }

  ghost predicate OneOpen(files: Files) {
    forall m, n :: Open(files, m) && Open(files, n) ==> m == n
  }

  ghost predicate ActiveSafe(t: Target) {
    t.active.Some? ==>
      var request := t.active.value.request;
      && IntentName(request.nonce) in t.files && t.files[IntentName(request.nonce)] == RequestRecord(request)
      && ReceiptName(request.nonce) !in t.files
      && (t.active.value.stage.Intended? ==> forall i :: 0 <= i < |t.starts| ==> t.starts[i].nonce != request.nonce)
      && (!t.active.value.stage.Intended? ==> t.starts != [] && t.starts[|t.starts| - 1] == request)
      && (t.active.value.stage.Running? ==> |t.completions| == |t.starts| - 1)
      && (t.active.value.stage.Returned? ==> t.completions == t.starts)
  }

  ghost predicate StartsSafe(t: Target) {
    && (forall i :: 0 <= i < |t.starts| ==>
          && IntentName(t.starts[i].nonce) in t.files
          && t.files[IntentName(t.starts[i].nonce)] == RequestRecord(t.starts[i]))
    && (forall i, j :: 0 <= i < j < |t.starts| ==> t.starts[i].nonce != t.starts[j].nonce)
    && (forall i :: 0 <= i < |t.starts| - 1 ==> Settled(t.files, t.starts[i].nonce))
  }

  /** Effects end in the order they began, and only the last one may not have ended. */
  ghost predicate CompletionsSafe(t: Target) {
    && |t.completions| <= |t.starts| <= |t.completions| + 1
    && t.completions == t.starts[..|t.completions|]
    && (|t.completions| < |t.starts| ==> ReceiptName(t.starts[|t.starts| - 1].nonce) !in t.files)
    && (forall nonce :: ReceiptName(nonce) in t.files ==>
          exists i :: 0 <= i < |t.completions| && t.completions[i].nonce == nonce)
  }

  ghost predicate Safe(t: Target) {
    NamesSafe(t.files) && OneOpen(t.files) && ActiveSafe(t) && StartsSafe(t) && CompletionsSafe(t)
  }

  /** Admission to a start leaves no open attempt: every intent is settled. */
  lemma AdmittedMeansSettled(files: Files, nonce: string, request: Request)
    requires NamesSafe(files) && Admit(files, nonce, request).Start?
    ensures forall n :: IntentName(n) in files ==> Settled(files, n)
    ensures FenceName(nonce) !in files && IntentName(nonce) !in files && ReceiptName(nonce) !in files
  {
    forall n | IntentName(n) in files ensures Settled(files, n) {
      assert Clean(files, IntentName(n));
    }
  }

  lemma RunSafe(t: Target, nonce: string, request: Request, fate: Fate)
    requires Safe(t)
    ensures Safe(Step(t, Run(nonce, request, fate)))
  {
    if t.active.None? && Admit(t.files, nonce, request).Start? {
      AdmittedMeansSettled(t.files, nonce, request);
      IntentStored(t.files, nonce, request, fate);
      forall i | 0 <= i < |t.starts| ensures t.starts[i].nonce != nonce {
        assert IntentName(t.starts[i].nonce) in t.files;
      }
    }
  }

  /** A new intent beside settled ones is the only open one. */
  lemma IntentStored(files: Files, nonce: string, request: Request, fate: Fate)
    requires NamesSafe(files) && (forall n :: IntentName(n) in files ==> Settled(files, n))
             && ValidRequest(nonce, request)
    requires FenceName(nonce) !in files && IntentName(nonce) !in files && ReceiptName(nonce) !in files
    ensures var after := Store(files, IntentName(nonce), RequestRecord(request), fate);
      && NamesSafe(after) && OneOpen(after) && (forall n :: n != nonce && IntentName(n) in files ==> Settled(after, n))
  {
    var after := Store(files, IntentName(nonce), RequestRecord(request), fate);
    forall n | n != nonce && IntentName(n) in files ensures Settled(after, n) {
      assert Settled(files, n);
    }
  }

  lemma FenceSafe(t: Target, nonce: string, request: Request, fate: Fate)
    requires Safe(t)
    ensures Safe(Step(t, Fence(nonce, request, fate)))
  {
    var files := Step(t, Fence(nonce, request, fate)).files;
    forall n ensures Settled(files, n) == Settled(t.files, n) {
    }
    forall m, n | Open(files, m) && Open(files, n) ensures m == n {
      assert Open(t.files, m) && Open(t.files, n);
    }
  }

  lemma ReceiptSafe(t: Target, fate: Fate)
    requires Safe(t)
    ensures Safe(Step(t, WriteReceipt(fate)))
  {
    if t.active.Some? && t.active.value.stage.Returned? {
      var request := t.active.value.request;
      var t' := Step(t, WriteReceipt(fate));
      assert t.completions[|t.completions| - 1] == request;
      forall n | n != request.nonce ensures Settled(t'.files, n) == Settled(t.files, n) {
      }
      assert Open(t.files, request.nonce);
      forall m, n | Open(t'.files, m) && Open(t'.files, n) ensures m == n {
        assert Open(t.files, m) && Open(t.files, n);
      }
    }
  }

  lemma ReturnSafe(t: Target, value: Value)
    requires Safe(t)
    ensures Safe(Step(t, EffectReturns(value)))
  {
    if t.active.Some? && t.active.value.stage.Running? {
      var n := |t.completions|;
      assert t.starts[..n + 1] == t.starts && t.starts == t.starts[..n] + [t.starts[n]];
      forall nonce | ReceiptName(nonce) in t.files
        ensures exists i :: 0 <= i < n + 1 && (t.completions + [t.active.value.request])[i].nonce == nonce
      {
        var i :| 0 <= i < n && t.completions[i].nonce == nonce;
        assert (t.completions + [t.active.value.request])[i].nonce == nonce;
      }
    }
  }

  lemma StepSafe(t: Target, a: Action)
    requires Safe(t)
    ensures Safe(Step(t, a))
  {
    match a
    case Fence(nonce, request, fate) => FenceSafe(t, nonce, request, fate);
    case Run(nonce, request, fate) => RunSafe(t, nonce, request, fate);
    case EffectBegins => BeginSafe(t);
    case EffectReturns(value) => ReturnSafe(t, value);
    case WriteReceipt(fate) => ReceiptSafe(t, fate);
    case Stop =>
  }

  /** An effect begins only when every earlier one has its receipt. */
  lemma BeginSafe(t: Target)
    requires Safe(t)
    ensures Safe(Step(t, EffectBegins))
  {
    if t.active.Some? && t.active.value.stage.Intended? {
      var request := t.active.value.request;
      assert Open(t.files, request.nonce);
      forall i | 0 <= i < |t.starts| ensures Settled(t.files, t.starts[i].nonce) {
        assert t.starts[i].nonce != request.nonce;
        assert !Open(t.files, t.starts[i].nonce);
      }
      assert t.starts != [] ==> Settled(t.files, t.starts[|t.starts| - 1].nonce);
      assert t.completions == t.starts;
      var t' := Step(t, EffectBegins);
      assert t'.starts[..|t.starts|] == t.starts;
    }
  }

  // ----- What holds over every run -----

  lemma {:induction false} ExecuteSafe(t: Target, actions: seq<Action>)
    requires Safe(t)
    ensures Safe(Execute(t, actions))
    decreases actions
  {
    if actions != [] {
      StepSafe(t, actions[0]);
      ExecuteSafe(Step(t, actions[0]), actions[1..]);
    }
  }

  /** From an empty directory, whatever calls, crashes and torn writes follow. */
  lemma LedgerSafety(actions: seq<Action>)
    ensures var t := Execute(EMPTY, actions);
      && (forall n :: FenceName(n) in t.files ==> IntentName(n) !in t.files && ReceiptName(n) !in t.files)
      && (forall n :: ReceiptName(n) in t.files ==> IntentName(n) in t.files)
      && (forall n :: ReceiptName(n) in t.files && t.files[ReceiptName(n)].ReceiptRecord? ==>
            t.files[IntentName(n)] == RequestRecord(t.files[ReceiptName(n)].request))
      && (forall m, n :: Open(t.files, m) && Open(t.files, n) ==> m == n)
      && (forall i, j :: 0 <= i < j < |t.starts| ==> t.starts[i].nonce != t.starts[j].nonce)
      && (forall i :: 0 <= i < |t.starts| ==> FenceName(t.starts[i].nonce) !in t.files)
      && t.completions <= t.starts && |t.starts| <= |t.completions| + 1
  {
    ExecuteSafe(EMPTY, actions);
  }

  /** Names are never removed or rewritten, and effects are never forgotten. */
  ghost predicate Extends(before: Target, after: Target) {
    && (forall name :: name in before.files ==> name in after.files && after.files[name] == before.files[name])
    && before.starts <= after.starts && before.completions <= after.completions
  }

  lemma StepExtends(t: Target, a: Action)
    requires Safe(t)
    ensures Extends(t, Step(t, a))
  {
    match a
    case Fence(nonce, request, fate) => FenceExtends(t, nonce, request, fate);
    case Run(nonce, request, fate) => RunExtends(t, nonce, request, fate);
    case WriteReceipt(fate) => ReceiptExtends(t, fate);
    case _ =>
  }

  lemma FenceExtends(t: Target, nonce: string, request: Request, fate: Fate)
    ensures Extends(t, Step(t, Fence(nonce, request, fate)))
  {
  }

  lemma RunExtends(t: Target, nonce: string, request: Request, fate: Fate)
    ensures Extends(t, Step(t, Run(nonce, request, fate)))
  {
  }

  lemma ReceiptExtends(t: Target, fate: Fate)
    requires ActiveSafe(t)
    ensures Extends(t, Step(t, WriteReceipt(fate)))
  {
  }

  lemma {:induction false} ExecuteExtends(t: Target, actions: seq<Action>)
    requires Safe(t)
    ensures Extends(t, Execute(t, actions))
    decreases actions
  {
    if actions != [] {
      StepSafe(t, actions[0]);
      StepExtends(t, actions[0]);
      ExecuteExtends(Step(t, actions[0]), actions[1..]);
    }
  }

  /** Once the lock is free and an intent lacks its receipt, nothing ever starts again, and
      the intent never gets a receipt. */
  lemma {:induction false} IncompleteBlocksForever(t: Target, nonce: string, actions: seq<Action>)
    requires Safe(t) && t.active.None? && Open(t.files, nonce)
    ensures var t' := Execute(t, actions);
      t'.starts == t.starts && t'.active.None? && Open(t'.files, nonce)
    decreases actions
  {
    if actions != [] {
      OpenStaysOpen(t, nonce, actions[0]);
      StepSafe(t, actions[0]);
      IncompleteBlocksForever(Step(t, actions[0]), nonce, actions[1..]);
    }
  }

  lemma OpenStaysOpen(t: Target, nonce: string, a: Action)
    requires Safe(t) && t.active.None? && Open(t.files, nonce)
    ensures var t' := Step(t, a);
      && t'.starts == t.starts && t'.active.None? && Open(t'.files, nonce)
      && (ReceiptName(nonce) !in t.files ==> ReceiptName(nonce) !in t'.files)
  {
    if a.Run? && Admit(t.files, a.nonce, a.request).Start? {
      AdmittedMeansSettled(t.files, a.nonce, a.request);
    }
  }

  /** That is what the answer 'incomplete' reports. */
  lemma IncompleteAnswerIsFinal(t: Target, nonce: string, request: Request, actions: seq<Action>)
    requires Safe(t) && t.active.None? && JudgeFence(t.files, nonce, request) == Answer(Incomplete(request))
    ensures Execute(t, actions).starts == t.starts
    ensures JudgeFence(Execute(t, actions).files, nonce, request) == Answer(Incomplete(request))
  {
    IncompleteBlocksForever(t, nonce, actions);
    ExecuteExtends(t, actions);
    NoReceiptWhileIdle(t, nonce, actions);
    ExecuteSafe(t, actions);
  }

  lemma {:induction false} NoReceiptWhileIdle(t: Target, nonce: string, actions: seq<Action>)
    requires Safe(t) && t.active.None? && Open(t.files, nonce) && ReceiptName(nonce) !in t.files
    ensures ReceiptName(nonce) !in Execute(t, actions).files
    decreases actions
  {
    if actions != [] {
      OpenStaysOpen(t, nonce, actions[0]);
      StepSafe(t, actions[0]);
      NoReceiptWhileIdle(Step(t, actions[0]), nonce, actions[1..]);
    }
  }

  /** A fence is a promise about the future: the fenced request never starts. */
  lemma FencedNeverStarts(t: Target, nonce: string, actions: seq<Action>)
    requires Safe(t) && FenceName(nonce) in t.files
    ensures var starts := Execute(t, actions).starts;
      forall i :: 0 <= i < |starts| ==> starts[i].nonce != nonce
  {
    ExecuteSafe(t, actions);
    ExecuteExtends(t, actions);
  }

  /** A completed answer is final too: the same receipt is returned ever after. */
  lemma CompletedAnswerIsFinal(t: Target, nonce: string, request: Request, result: Value, actions: seq<Action>)
    requires Safe(t) && JudgeFence(t.files, nonce, request) == Answer(Completed(request, result))
    ensures JudgeFence(Execute(t, actions).files, nonce, request) == Answer(Completed(request, result))
    ensures Admit(Execute(t, actions).files, nonce, request) == Replay(result)
    ensures request in Execute(t, actions).completions
  {
    ExecuteSafe(t, actions);
    ExecuteExtends(t, actions);
    AnswerStays(t, Execute(t, actions), nonce, request, result);
    ReceiptCompleted(Execute(t, actions), nonce, request);
  }

  lemma AnswerStays(t: Target, t': Target, nonce: string, request: Request, result: Value)
    requires NamesSafe(t'.files) && Extends(t, t')
             && JudgeFence(t.files, nonce, request) == Answer(Completed(request, result))
    ensures JudgeFence(t'.files, nonce, request) == Answer(Completed(request, result))
    ensures Admit(t'.files, nonce, request) == Replay(result)
    ensures ReceiptName(nonce) in t'.files && IntentName(nonce) in t'.files
    ensures t'.files[IntentName(nonce)] == RequestRecord(request)
  {
  }

  /** A receipt belongs to an effect that ended. */
  lemma ReceiptCompleted(t: Target, nonce: string, request: Request)
    requires StartsSafe(t) && CompletionsSafe(t) && ReceiptName(nonce) in t.files
    requires IntentName(nonce) in t.files && t.files[IntentName(nonce)] == RequestRecord(request)
    ensures request in t.completions
  {
    var i :| 0 <= i < |t.completions| && t.completions[i].nonce == nonce;
    assert t.completions[i] == t.starts[i];
  }

  /** The whole call `run` is the run of its steps: what the class method computes in one go
      is what the transition system reaches when nobody interferes. */
  lemma RunCallIsARun(t: Target, nonce: string, request: Request, intentFate: Fate, effect: Effect, receiptFate: Fate)
    requires Safe(t) && t.active.None?
    ensures var script := if effect.Returns?
                          then [Run(nonce, request, intentFate), EffectBegins, EffectReturns(effect.value),
                                WriteReceipt(receiptFate)]
                          else [Run(nonce, request, intentFate), EffectBegins, Stop];
      && Execute(t, script).files == RunCall(t.files, nonce, request, intentFate, effect, receiptFate).0
      && Execute(t, script).active.None?
      && Execute(t, script).starts == if Admit(t.files, nonce, request).Start? && intentFate.Written?
                                      then t.starts + [request] else t.starts
  {
    if effect.Returns? {
      ReturningScript(t, nonce, request, intentFate, effect.value, receiptFate);
      ReturningSteps(t, nonce, request, intentFate, effect.value, receiptFate);
    } else {
      RaisingScript(t, nonce, request, intentFate);
      RaisingSteps(t, nonce, request, intentFate);
    }
  }

  /** The target after the four steps of a call whose effect returns. */
  function Returning(t: Target, nonce: string, request: Request, intentFate: Fate, value: Value, receiptFate: Fate)
    : Target
  {
    Step(Step(Step(Step(t, Run(nonce, request, intentFate)), EffectBegins), EffectReturns(value)),
         WriteReceipt(receiptFate))
  }

  lemma ReturningScript(t: Target, nonce: string, request: Request, intentFate: Fate, value: Value, receiptFate: Fate)
    ensures Execute(t, [Run(nonce, request, intentFate), EffectBegins, EffectReturns(value), WriteReceipt(receiptFate)])
         == Returning(t, nonce, request, intentFate, value, receiptFate)
  {
    var a, b, c, d := Run(nonce, request, intentFate), EffectBegins, EffectReturns(value), WriteReceipt(receiptFate);
    ExecuteTwice(t, a, b, [c, d]);
    ExecuteTwice(Step(Step(t, a), b), c, d, []);
    assert [c, d] + [] == [c, d] && [a, b] + [c, d] == [a, b, c, d];
  }

  lemma ReturningSteps(t: Target, nonce: string, request: Request, intentFate: Fate, value: Value, receiptFate: Fate)
    requires t.active.None?
    ensures var after := Returning(t, nonce, request, intentFate, value, receiptFate);
      && after.files == RunCall(t.files, nonce, request, intentFate, Returns(value), receiptFate).0
      && after.active.None?
      && after.starts == if Admit(t.files, nonce, request).Start? && intentFate.Written? then t.starts + [request]
                         else t.starts
  {
  }

  lemma RaisingScript(t: Target, nonce: string, request: Request, intentFate: Fate)
    ensures Execute(t, [Run(nonce, request, intentFate), EffectBegins, Stop])
         == Step(Step(Step(t, Run(nonce, request, intentFate)), EffectBegins), Stop)
  {
    var a, b := Run(nonce, request, intentFate), EffectBegins;
    ExecuteTwice(t, a, b, [Stop]);
    assert [a, b] + [Stop] == [a, b, Stop] && [Stop][1..] == [];
  }

  lemma RaisingSteps(t: Target, nonce: string, request: Request, intentFate: Fate)
    requires t.active.None?
    ensures var after := Step(Step(Step(t, Run(nonce, request, intentFate)), EffectBegins), Stop);
      forall receiptFate ::
        && after.files == RunCall(t.files, nonce, request, intentFate, Raises, receiptFate).0 && after.active.None?
        && after.starts == if Admit(t.files, nonce, request).Start? && intentFate.Written? then t.starts + [request]
                           else t.starts
  {
  }

  lemma ExecuteTwice(t: Target, a: Action, b: Action, rest: seq<Action>)
    ensures Execute(t, [a, b] + rest) == Execute(Step(Step(t, a), b), rest)
  {
    assert ([a, b] + rest)[1..] == [b] + rest && ([b] + rest)[1..] == rest;
  }

  // ----- The ledger stays usable -----

  /** An intact fence is that of a valid request. */
  ghost predicate FencesValid(files: Files) {
    forall n :: FenceName(n) in files && !files[FenceName(n)].Unreadable? ==>
      files[FenceName(n)].RequestRecord? && ValidRequest(n, files[FenceName(n)].request)
  }

  lemma StepFences(t: Target, a: Action)
    requires FencesValid(t.files)
    ensures FencesValid(Step(t, a).files)
  {
  }

  lemma {:induction false} ExecuteFences(t: Target, actions: seq<Action>)
    requires FencesValid(t.files)
    ensures FencesValid(Execute(t, actions).files)
    decreases actions
  {
    if actions != [] {
      StepFences(t, actions[0]);
      ExecuteFences(Step(t, actions[0]), actions[1..]);
    }
  }

  ghost predicate NoTornFence(files: Files) {
    forall n :: FenceName(n) in files ==> !files[FenceName(n)].Unreadable?
  }

  ghost predicate NoneOpen(files: Files) {
    forall n :: !Open(files, n)
  }

  lemma OrderlyIff(files: Files)
    requires NamesSafe(files) && FencesValid(files)
    ensures Orderly(files) <==> NoneOpen(files) && NoTornFence(files)
  {
    if NoneOpen(files) && NoTornFence(files) {
      SettledIsOrderly(files);
    }
    if Orderly(files) {
      forall n ensures !Open(files, n) {
        if IntentName(n) in files {
          var request, result :| files[IntentName(n)] == RequestRecord(request)
                                 && files[ReceiptName(n)] == ReceiptRecord(request, result) && !result.NotMapping?;
        }
      }
      forall n | FenceName(n) in files ensures !files[FenceName(n)].Unreadable? {
        var request :| ValidRequest(n, request) && FencedOff(files, n, request);
      }
    }
  }

  lemma SettledIsOrderly(files: Files)
    requires NamesSafe(files) && FencesValid(files) && NoneOpen(files) && NoTornFence(files)
    ensures Orderly(files)
  {
    forall n | IntentName(n) in files
      ensures Hex(n, 32) && ReceiptName(n) in files
      ensures exists request, result :: files[IntentName(n)] == RequestRecord(request)
                && files[ReceiptName(n)] == ReceiptRecord(request, result) && !result.NotMapping?
    {
      assert !Open(files, n);
      var record := files[ReceiptName(n)];
      assert IntentName(n).nonce == n && files[IntentName(n)] == RequestRecord(record.request)
             && record == ReceiptRecord(record.request, record.result);
    }
    forall n | FenceName(n) in files
      ensures Hex(n, 32) && exists request :: ValidRequest(n, request) && FencedOff(files, n, request)
    {
      assert ValidRequest(n, files[FenceName(n)].request) && FencedOff(files, n, files[FenceName(n)].request);
    }
    forall n | ReceiptName(n) in files ensures Hex(n, 32) && IntentName(n) in files {
      assert ReceiptName(n).nonce == n;
    }
    forall text ensures Stray(text) !in files {
      assert Stray(text) in files ==> !Stray(text).Stray?;
    }
  }

  /** In every reachable state with the lock free, a fresh request starts exactly when no attempt
      is open and no fence is torn. */
  lemma FreshRequestStarts(actions: seq<Action>, nonce: string, request: Request)
    requires ValidRequest(nonce, request)
    ensures var t := Execute(EMPTY, actions);
      t.active.None? && Unused(t.files, nonce) ==>
        (Step(t, Run(nonce, request, Written)).active == Some(Active(request, Intended))
         <==> NoneOpen(t.files) && NoTornFence(t.files))
  {
    var t := Execute(EMPTY, actions);
    ExecuteSafe(EMPTY, actions);
    ExecuteFences(EMPTY, actions);
    OrderlyIff(t.files);
    CleanIffOrderly(t.files);
  }

  /** Nobody at work, nothing open, nothing torn. */
  ghost predicate Quiet(t: Target) {
    Safe(t) && FencesValid(t.files) && NoTornFence(t.files) && NoneOpen(t.files) && t.active.None?
  }

  /** Distinct valid requests whose nonces nobody used. */
  ghost predicate AllFresh(files: Files, requests: seq<Request>) {
    && (forall i :: 0 <= i < |requests| ==> FreshIn(files, requests[i]))
    && (forall i, j :: 0 <= i < j < |requests| ==> requests[i].nonce != requests[j].nonce)
  }

  ghost predicate FreshIn(files: Files, request: Request) {
    ValidRequest(request.nonce, request) && Unused(files, request.nonce)
  }

  function OneAttempt(r: Request, value: Value): seq<Action> {
    [Run(r.nonce, r, Written), EffectBegins] + [EffectReturns(value), WriteReceipt(Written)]
  }

  /** So attempt after attempt can run to its end, any number of them. */
  lemma {:induction false} AttemptsComplete(t: Target, requests: seq<Request>, value: Value)
    returns (actions: seq<Action>)
    requires Quiet(t) && !value.NotMapping? && AllFresh(t.files, requests)
    ensures Execute(t, actions).completions == t.completions + requests && Quiet(Execute(t, actions))
    decreases requests
  {
    if requests == [] {
      actions := [];
      assert t.completions + [] == t.completions;
    } else {
      var r := requests[0];
      assert FreshIn(t.files, r);
      var one := OneAttempt(r, value);
      var after := AttemptCompletes(t, r, value, one);
      StayFresh(t.files, after.files, r, requests);
      var more := AttemptsComplete(after, requests[1..], value);
      actions := one + more;
      ExecuteAppend(t, one, more);
      HeadAndTail(t.completions, requests);
    }
  }

  lemma HeadAndTail(before: seq<Request>, requests: seq<Request>)
    requires requests != []
    ensures before + [requests[0]] + requests[1..] == before + requests
  {
  }

  lemma StayFresh(files: Files, after: Files, r: Request, requests: seq<Request>)
    requires requests != [] && requests[0] == r && AllFresh(files, requests)
    requires forall n :: n != r.nonce && Unused(files, n) ==> Unused(after, n)
    ensures AllFresh(after, requests[1..])
  {
    forall i | 0 <= i < |requests[1..]| ensures FreshIn(after, requests[1..][i]) {
      assert FreshIn(files, requests[i + 1]);
    }
  }

  lemma {:induction false} ExecuteAppend(t: Target, a: seq<Action>, b: seq<Action>)
    ensures Execute(t, a + b) == Execute(Execute(t, a), b)
    decreases a
  {
    if a == [] {
      assert a + b == b;
    } else {
      assert (a + b)[1..] == a[1..] + b;
      ExecuteAppend(Step(t, a[0]), a[1..], b);
    }
  }

  /** What one attempt does to the directory. */
  function Attempted(files: Files, r: Request, value: Value): Files {
    files[IntentName(r.nonce) := RequestRecord(r)][ReceiptName(r.nonce) := ReceiptRecord(r, value)]
  }

  lemma AttemptCompletes(t: Target, r: Request, value: Value, one: seq<Action>) returns (after: Target)
    requires Quiet(t) && !value.NotMapping? && FreshIn(t.files, r) && one == OneAttempt(r, value)
    ensures after == Execute(t, one) && Quiet(after) && after.completions == t.completions + [r]
    ensures forall n :: n != r.nonce && Unused(t.files, n) ==> Unused(after.files, n)
  {
    after := Execute(t, one);
    AttemptSteps(t, r, value);
    ExecuteSafe(t, OneAttempt(r, value));
    AttemptSettles(t.files, r, value);
  }

  lemma AttemptSteps(t: Target, r: Request, value: Value)
    requires Quiet(t) && FreshIn(t.files, r)
    ensures Execute(t, OneAttempt(r, value))
         == Target(Attempted(t.files, r, value), None, t.starts + [r], t.completions + [r])
  {
    OrderlyIff(t.files);
    CleanIffOrderly(t.files);
    var begun := Target(t.files[IntentName(r.nonce) := RequestRecord(r)], Some(Active(r, Intended)), t.starts,
                        t.completions);
    assert Step(t, Run(r.nonce, r, Written)) == begun;
    EffectSteps(begun, r, value);
    ExecuteTwice(t, Run(r.nonce, r, Written), EffectBegins, [EffectReturns(value), WriteReceipt(Written)]);
    assert OneAttempt(r, value)
         == [Run(r.nonce, r, Written), EffectBegins] + [EffectReturns(value), WriteReceipt(Written)];
  }

  lemma EffectSteps(begun: Target, r: Request, value: Value)
    requires begun.active == Some(Active(r, Intended))
    ensures Execute(Step(begun, EffectBegins), [EffectReturns(value), WriteReceipt(Written)])
         == Target(begun.files[ReceiptName(r.nonce) := ReceiptRecord(r, value)], None, begun.starts + [r],
                   begun.completions + [r])
  {
    var running := Step(begun, EffectBegins);
    assert running == begun.(active := Some(Active(r, Running)), starts := begun.starts + [r]);
    var returned := Step(running, EffectReturns(value));
    assert returned == running.(active := Some(Active(r, Returned(value))), completions := begun.completions + [r]);
    ExecuteTwice(running, EffectReturns(value), WriteReceipt(Written), []);
    assert [EffectReturns(value), WriteReceipt(Written)] + [] == [EffectReturns(value), WriteReceipt(Written)];
  }

  lemma AttemptSettles(files: Files, r: Request, value: Value)
    requires NoneOpen(files) && !value.NotMapping? && Unused(files, r.nonce)
    requires FencesValid(files) && NoTornFence(files)
    ensures var after := Attempted(files, r, value);
      && NoneOpen(after) && FencesValid(after) && NoTornFence(after)
      && forall n :: n != r.nonce && Unused(files, n) ==> Unused(after, n)
  {
    var after := Attempted(files, r, value);
    forall n ensures !Open(after, n) {
      if n != r.nonce && IntentName(n) in files {
        assert !Open(files, n);
        assert Settled(files, n);
      }
    }
  }
}
