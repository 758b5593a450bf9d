/** Durable target attempt receipts (tools/forge_recovery_ledger.py).

    A ledger directory maps file names to records. A record write is exclusive but not
    atomic: the process can stop or raise before anything is created, with a torn file, or
    after the record is complete (tools/forge_target_journal.py:24-32).
 */
module Ledger {
  import opened Wrappers

  datatype Direction = Apply | Restore

  datatype Request = Request(plan: string, direction: Direction, nonce: string)

  datatype Acknowledgement = Acknowledgement(direction: Direction, nonce: string, plan: string,
                                             machine: string, sha256: string, size: int, published: bool)

  /** What an effect may return: the expected report, some other mapping, or no mapping. */
  datatype Value = Report(ack: Acknowledgement) | OtherMapping | NotMapping

  datatype Name = IntentName(nonce: string) | ReceiptName(nonce: string) | FenceName(nonce: string)
                | Stray(text: string)

  datatype Record = RequestRecord(request: Request) | ReceiptRecord(request: Request, result: Value) | Unreadable

  type Files = map<Name, Record>

  datatype Fate = NotWritten | Torn | WrittenThenRaised | Written {
    predicate Durable() {
      Written? || WrittenThenRaised?
    }
  }

  datatype Outcome = Completed(request: Request, result: Value) | FencedNotStarted(request: Request)
                   | Incomplete(request: Request)

  datatype Error = InvalidRequest | ConflictingFence | IdentityDiffers | InvalidReceipt | OrphanedReceipt
                 | ReadFailed | WriteFailed | AlreadyFenced | NonceReused | AttemptIncomplete | LedgerUnsafe
                 | EffectFailed

  predicate Hex(text: string, length: nat) {
    |text| == length && forall i :: 0 <= i < length ==> '0' <= text[i] <= '9' || 'a' <= text[i] <= 'f'
  }

  predicate ValidRequest(nonce: string, request: Request) {
    Hex(nonce, 32) && request.nonce == nonce && Hex(request.plan, 64)
  }

  function Store(files: Files, name: Name, record: Record, fate: Fate): Files {
    match fate
    case NotWritten => files
    case Torn => files[name := Unreadable]
    case WrittenThenRaised => files[name := record]
    case Written => files[name := record]
  }

  // ----- fence -----

  datatype FenceVerdict = Mark | Answer(outcome: Outcome) | Refuse(error: Error)

  function JudgeFence(files: Files, nonce: string, request: Request): FenceVerdict {
    if !ValidRequest(nonce, request) then Refuse(InvalidRequest)
    else if FenceName(nonce) in files then
      if IntentName(nonce) in files || ReceiptName(nonce) in files then Refuse(ConflictingFence)
      else if files[FenceName(nonce)].Unreadable? then Refuse(ReadFailed)
      else if files[FenceName(nonce)] != RequestRecord(request) then Refuse(ConflictingFence)
      else Answer(FencedNotStarted(request))
    else if IntentName(nonce) in files then
      if files[IntentName(nonce)].Unreadable? then Refuse(ReadFailed)
      else if files[IntentName(nonce)] != RequestRecord(request) then Refuse(IdentityDiffers)
      else if ReceiptName(nonce) !in files then Answer(Incomplete(request))
      else match files[ReceiptName(nonce)]
        case Unreadable => Refuse(ReadFailed)
        case RequestRecord(_) => Refuse(InvalidReceipt)
        case ReceiptRecord(stored, result) =>
          if stored != request || result.NotMapping? then Refuse(InvalidReceipt)
          else Answer(Completed(request, result))
    else if ReceiptName(nonce) in files then Refuse(OrphanedReceipt)
    else Mark
  }

  function FenceCall(files: Files, nonce: string, request: Request, fate: Fate): (Files, Result<Outcome, Error>) {
    match JudgeFence(files, nonce, request)
    case Refuse(error) => (files, Err(error))
    case Answer(outcome) => (files, Ok(outcome))
    case Mark => (Store(files, FenceName(nonce), RequestRecord(request), fate),
                  if fate.Written? then Ok(FencedNotStarted(request)) else Err(WriteFailed))
  }

  // ----- run -----

  datatype Admission = Start | Replay(result: Value) | Deny(error: Error)

  /** What the scan over prior names demands of one of them. */
  predicate Clean(files: Files, name: Name)
    requires name in files
  {
    match name
    case Stray(_) => false
    case FenceName(nonce) =>
      && Hex(nonce, 32) && files[name].RequestRecord? && ValidRequest(nonce, files[name].request)
      && IntentName(nonce) !in files && ReceiptName(nonce) !in files
    case ReceiptName(nonce) =>
      Hex(nonce, 32) && IntentName(nonce) in files
    case IntentName(nonce) =>
      && Hex(nonce, 32) && ReceiptName(nonce) in files && files[ReceiptName(nonce)].ReceiptRecord?
      && files[name] == RequestRecord(files[ReceiptName(nonce)].request)
      && !files[ReceiptName(nonce)].result.NotMapping?
  }

  predicate AllClean(files: Files) {
    forall name :: name in files ==> Clean(files, name)
  }

  function Admit(files: Files, nonce: string, request: Request): Admission {
    if !ValidRequest(nonce, request) then Deny(InvalidRequest)
    else if FenceName(nonce) in files then
      if files[FenceName(nonce)].Unreadable? then Deny(ReadFailed)
      else if files[FenceName(nonce)] != RequestRecord(request) || IntentName(nonce) in files
              || ReceiptName(nonce) in files then Deny(ConflictingFence)
      else Deny(AlreadyFenced)
    else if IntentName(nonce) in files then
      if files[IntentName(nonce)].Unreadable? then Deny(ReadFailed)
      else if files[IntentName(nonce)] != RequestRecord(request) then Deny(NonceReused)
      else if ReceiptName(nonce) !in files then Deny(AttemptIncomplete)
      else match files[ReceiptName(nonce)]
        case Unreadable => Deny(ReadFailed)
        case RequestRecord(_) => Deny(InvalidReceipt)
        case ReceiptRecord(stored, result) => if stored != request then Deny(InvalidReceipt) else Replay(result)
    else if ReceiptName(nonce) in files then Deny(OrphanedReceipt)
    else if !AllClean(files) then Deny(LedgerUnsafe)
    else Start
  }

  datatype Effect = Returns(value: Value) | Raises

  function RunCall(files: Files, nonce: string, request: Request, intentFate: Fate, effect: Effect, receiptFate: Fate)
    : (Files, Result<Value, Error>)
  {
    match Admit(files, nonce, request)
    case Deny(error) => (files, Err(error))
    case Replay(result) => (files, Ok(result))
    case Start =>
      var begun := Store(files, IntentName(nonce), RequestRecord(request), intentFate);
      if !intentFate.Written? then (begun, Err(WriteFailed))
      else match effect
        case Raises => (begun, Err(EffectFailed))
        case Returns(value) =>
          (Store(begun, ReceiptName(nonce), ReceiptRecord(request, value), receiptFate),
           if receiptFate.Written? then Ok(value) else Err(WriteFailed))
  }

  class TargetLedger {
    var files: Files
    ghost var started: seq<Request>  // effects begun through this object

    constructor ()
      ensures files == map[] && started == []
    {
      files := map[];
      started := [];
    }

    method Fence(nonce: string, request: Request, fate: Fate) returns (r: Result<Outcome, Error>)
      modifies this
      ensures (files, r) == FenceCall(old(files), nonce, request, fate)
      ensures started == old(started)
      ensures FenceTold(old(files), nonce, request, fate, files, r)
    {
      FenceTells(files, nonce, request, fate);
      if !ValidRequest(nonce, request) {
        return Err(InvalidRequest);
      }
      var intent, receipt, marker := IntentName(nonce), ReceiptName(nonce), FenceName(nonce);
      if marker in files {
        if intent in files || receipt in files {
          return Err(ConflictingFence);
        }
        if files[marker].Unreadable? {
          return Err(ReadFailed);
        }
        if files[marker] != RequestRecord(request) {
          return Err(ConflictingFence);
        }
      } else if intent in files {
        if files[intent].Unreadable? {
          return Err(ReadFailed);
        }
        if files[intent] != RequestRecord(request) {
          return Err(IdentityDiffers);
        }
        if receipt !in files {
          return Ok(Incomplete(request));
        }
        var record := files[receipt];
        if record.Unreadable? {
          return Err(ReadFailed);
        }
        if !record.ReceiptRecord? || record.request != request || record.result.NotMapping? {
          return Err(InvalidReceipt);
        }
        return Ok(Completed(request, record.result));
      } else if receipt in files {
        return Err(OrphanedReceipt);
      } else {
        files := Store(files, marker, RequestRecord(request), fate);
        if !fate.Written? {
          return Err(WriteFailed);
        }
      }
      return Ok(FencedNotStarted(request));
    }

    method Run(nonce: string, request: Request, intentFate: Fate, effect: Effect, receiptFate: Fate)
      returns (r: Result<Value, Error>)
      modifies this
      ensures (files, r) == RunCall(old(files), nonce, request, intentFate, effect, receiptFate)
      ensures started == if Admit(old(files), nonce, request).Start? && intentFate.Written?
                         then old(started) + [request] else old(started)
      ensures RunTold(old(files), nonce, request, intentFate, effect, receiptFate, files, r)
    {
      RunTells(files, nonce, request, intentFate, effect, receiptFate);
      if !ValidRequest(nonce, request) {
        return Err(InvalidRequest);
      }
      var intent, receipt, marker := IntentName(nonce), ReceiptName(nonce), FenceName(nonce);
      if marker in files {
        if files[marker].Unreadable? {
          return Err(ReadFailed);
        }
        if files[marker] != RequestRecord(request) || intent in files || receipt in files {
          return Err(ConflictingFence);
        }
        return Err(AlreadyFenced);
      }
      if intent in files {
        if files[intent].Unreadable? {
          return Err(ReadFailed);
        }
        if files[intent] != RequestRecord(request) {
          return Err(NonceReused);
        }
        if receipt in files {
          var record := files[receipt];
          if record.Unreadable? {
            return Err(ReadFailed);
          }
          if !record.ReceiptRecord? || record.request != request {
            return Err(InvalidReceipt);
          }
          return Ok(record.result);
        }
        return Err(AttemptIncomplete);
      }
      if receipt in files {
        return Err(OrphanedReceipt);
      }
      var names := files.Keys;
      while names != {}
        invariant names <= files.Keys && files == old(files) && started == old(started)
        invariant forall name :: name in files && name !in names ==> Clean(files, name)
      {
        var name :| name in names;
        if !Clean(files, name) {
          return Err(LedgerUnsafe);
        }
        names := names - {name};
      }
      files := Store(files, intent, RequestRecord(request), intentFate);
      if !intentFate.Written? {
        return Err(WriteFailed);
      }
      started := started + [request];
      if effect.Raises? {
        return Err(EffectFailed);
      }
      files := Store(files, receipt, ReceiptRecord(request, effect.value), receiptFate);
      if !receiptFate.Written? {
        return Err(WriteFailed);
      }
      return Ok(effect.value);
    }
  }

  // ----- What a call tells its caller -----

  ghost predicate Unused(files: Files, nonce: string) {
    FenceName(nonce) !in files && IntentName(nonce) !in files && ReceiptName(nonce) !in files
  }

  /** An attempt at exactly this request was begun, and nothing fences it. */
  ghost predicate Begun(files: Files, nonce: string, request: Request) {
    FenceName(nonce) !in files && IntentName(nonce) in files && files[IntentName(nonce)] == RequestRecord(request)
  }

  /** And it has its receipt. */
  ghost predicate Finished(files: Files, nonce: string, request: Request, result: Value) {
    && Begun(files, nonce, request)
    && ReceiptName(nonce) in files && files[ReceiptName(nonce)] == ReceiptRecord(request, result)
  }

  ghost predicate FencedOff(files: Files, nonce: string, request: Request) {
    && FenceName(nonce) in files && files[FenceName(nonce)] == RequestRecord(request)
    && IntentName(nonce) !in files && ReceiptName(nonce) !in files
  }

  /** Nothing lies about that the program did not put there, and every attempt has its receipt. */
  ghost predicate Orderly(files: Files) {
    && (forall text :: Stray(text) !in files)
    && (forall n :: IntentName(n) in files ==>
          && Hex(n, 32) && ReceiptName(n) in files
          && exists request, result :: files[IntentName(n)] == RequestRecord(request)
               && files[ReceiptName(n)] == ReceiptRecord(request, result) && !result.NotMapping?)
    && (forall n :: ReceiptName(n) in files ==> Hex(n, 32) && IntentName(n) in files)
    && (forall n :: FenceName(n) in files ==>
          Hex(n, 32) && exists request :: ValidRequest(n, request) && FencedOff(files, n, request))
  }

  lemma CleanIffOrderly(files: Files)
    ensures AllClean(files) <==> Orderly(files)
  {
    if AllClean(files) {
      CleanIsOrderly(files);
    }
    if Orderly(files) {
      forall name | name in files ensures Clean(files, name) {
        OrderlyIsClean(files, name);
      }
    }
  }

  lemma CleanIsOrderly(files: Files)
    requires AllClean(files)
    ensures Orderly(files)
  {
    forall text ensures Stray(text) !in files {
      assert Stray(text) in files ==> Clean(files, Stray(text));
    }
    forall n | IntentName(n) in files
      ensures Hex(n, 32) && ReceiptName(n) in files
      ensures exists request, result :: files[IntentName(n)] == RequestRecord(request)
                && files[ReceiptName(n)] == ReceiptRecord(request, result) && !result.NotMapping?
    {
      assert Clean(files, IntentName(n));
      var record := files[ReceiptName(n)];
      assert files[IntentName(n)] == RequestRecord(record.request)
             && record == ReceiptRecord(record.request, record.result);
    }
    forall n | ReceiptName(n) in files ensures Hex(n, 32) && IntentName(n) in files {
      assert Clean(files, ReceiptName(n));
    }
    forall n | FenceName(n) in files
      ensures Hex(n, 32) && exists request :: ValidRequest(n, request) && FencedOff(files, n, request)
    {
      assert Clean(files, FenceName(n));
      assert ValidRequest(n, files[FenceName(n)].request) && FencedOff(files, n, files[FenceName(n)].request);
    }
  }

  lemma OrderlyIsClean(files: Files, name: Name)
    requires Orderly(files) && name in files
    ensures Clean(files, name)
  {
    match name
    case Stray(text) =>
    case FenceName(n) =>
      var request :| ValidRequest(n, request) && FencedOff(files, n, request);
    case ReceiptName(n) =>
    case IntentName(n) =>
      var request, result :| files[IntentName(n)] == RequestRecord(request)
                             && files[ReceiptName(n)] == ReceiptRecord(request, result) && !result.NotMapping?;
  }

  /** A run returns a value exactly when the attempt has its receipt already, or everything of a
      first attempt succeeds; and every refusal has its cause. */
  ghost predicate RunTold(files: Files, nonce: string, request: Request, intentFate: Fate, effect: Effect,
                          receiptFate: Fate, after: Files, r: Result<Value, Error>)
  {
    if !ValidRequest(nonce, request) then after == files && r == Err(InvalidRequest)
    else if Unused(files, nonce) && Orderly(files) then
      StartTold(files, nonce, request, intentFate, effect, receiptFate, after, r)
    else
      && after == files
      && (forall value :: r == Ok(value) <==> Finished(files, nonce, request, value))
      && (r == Err(LedgerUnsafe) <==> Unused(files, nonce))
      && (r == Err(AlreadyFenced) <==> FencedOff(files, nonce, request))
      && (r == Err(AttemptIncomplete) <==> Begun(files, nonce, request) && ReceiptName(nonce) !in files)
      && (r.Err? ==> !r.error.EffectFailed? && !r.error.WriteFailed? && !r.error.InvalidRequest?)
  }

  ghost predicate StartTold(files: Files, nonce: string, request: Request, intentFate: Fate, effect: Effect,
                            receiptFate: Fate, after: Files, r: Result<Value, Error>)
  {
    if !intentFate.Written? then r == Err(WriteFailed)
    else if effect.Raises? then r == Err(EffectFailed) && after == files[IntentName(nonce) := RequestRecord(request)]
    else if !receiptFate.Written? then r == Err(WriteFailed)
    else
      && r == Ok(effect.value)
      && after == files[IntentName(nonce) := RequestRecord(request)]
                       [ReceiptName(nonce) := ReceiptRecord(request, effect.value)]
  }

  lemma RunTells(files: Files, nonce: string, request: Request, intentFate: Fate, effect: Effect, receiptFate: Fate)
    ensures var call := RunCall(files, nonce, request, intentFate, effect, receiptFate);
      RunTold(files, nonce, request, intentFate, effect, receiptFate, call.0, call.1)
  {
    CleanIffOrderly(files);
  }

  /** A fence answers what is on record for exactly this request, and marks a nonce nobody used. */
  ghost predicate FenceTold(files: Files, nonce: string, request: Request, fate: Fate, after: Files,
                            r: Result<Outcome, Error>)
  {
    if !ValidRequest(nonce, request) then after == files && r == Err(InvalidRequest)
    else if Unused(files, nonce) then
      && (r == Ok(FencedNotStarted(request)) <==> fate.Written?) && (r == Err(WriteFailed) <==> !fate.Written?)
      && (fate.Written? ==> after == files[FenceName(nonce) := RequestRecord(request)])
    else
      && after == files
      && (r == Ok(FencedNotStarted(request)) <==> FencedOff(files, nonce, request))
      && (r == Ok(Incomplete(request)) <==> Begun(files, nonce, request) && ReceiptName(nonce) !in files)
      && (forall value :: r == Ok(Completed(request, value)) <==>
                            Finished(files, nonce, request, value) && !value.NotMapping?)
      && (r.Ok? ==> r.value.request == request)
  }

  lemma FenceTells(files: Files, nonce: string, request: Request, fate: Fate)
    ensures var call := FenceCall(files, nonce, request, fate);
      FenceTold(files, nonce, request, fate, call.0, call.1)
  {
  }
}
