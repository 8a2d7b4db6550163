/** Whole identification runs. The step driver is not part of this model;
    it is taken to behave as follows: it issues the operation a step asks
    for, and while the step returned false it calls the next step with the
    value of that operation. A successful operation clears the optional-CV
    flag. A failed operation while the flag is set leaves it set and passes
    an undefined value on; a failed operation while the flag is clear has no
    handling in the state machine, and the run stops there (Unhandled). */
module IdentifyRun {
  import opened JavaInt
  import opened Optional
  import opened Manufacturers
  import opened ProductId
  import opened Identify

  /** What the programming track returns for one operation. Failed carries
      the undefined value the step then sees. */
  datatype Reply = Ok(value: Int32) | Failed(value: Int32)

  datatype Status = Finished | Waiting | Unhandled

  /** The operations issued, the final session and how the run ended. */
  datatype Outcome = Outcome(ops: seq<CvOp>, session: Session, status: Status)

  /** Steps k, k+1, ... fed with replies[i..], after the operations ops. */
  function Drive(k: nat, s: Session, replies: seq<Reply>, i: nat, ops: seq<CvOp>): Outcome
    requires 2 <= k <= 9
    requires k >= 4 ==> s.mfgID.Some?
    decreases 10 - k
  {
    if i >= |replies| then Outcome(ops, s, Waiting)
    else if replies[i].Failed? && !s.optionalCv then Outcome(ops, s, Unhandled)
    else
      var seen := if replies[i].Ok? then s.(optionalCv := false) else s;
      var t := Step(k, seen, replies[i].value);
      match t.action
      case Finish => Outcome(ops, t.next, Finished)
      case Issue(op) => Drive(k + 1, t.next, replies, i + 1, ops + [op])
  }

  /** A run from a fresh session: step 1 reads CV8, and each reply answers
      the operation issued before it. */
  function Run(replies: seq<Reply>): Outcome
  {
    var t := Step1(Initial);
    Drive(2, t.next, replies, 0, [t.action.op])
  }

  // ---------------------------------------------------------------------
  // Properties of every run

  /** The driver only appends operations, at most one per remaining step. */
  lemma {:induction false} DriveAppends(k: nat, s: Session, replies: seq<Reply>, i: nat, ops: seq<CvOp>)
    requires 2 <= k <= 9
    requires k >= 4 ==> s.mfgID.Some?
    ensures var o := Drive(k, s, replies, i, ops);
      && |ops| <= |o.ops| <= |ops| + 9 - k
      && forall j :: 0 <= j < |ops| ==> o.ops[j] == ops[j]
    decreases 10 - k
  {
    if i < |replies| && !(replies[i].Failed? && !s.optionalCv) {
      var seen := if replies[i].Ok? then s.(optionalCv := false) else s;
      var t := Step(k, seen, replies[i].value);
      if t.action.Issue? {
        DriveAppends(k + 1, t.next, replies, i + 1, ops + [t.action.op]);
      }
    }
  }

  /** A run waits only for want of replies: it consumes one reply per
      operation issued, so a reply for every remaining step ends it. */
  lemma {:induction false} DriveWaits(k: nat, s: Session, replies: seq<Reply>, i: nat, ops: seq<CvOp>)
    requires 2 <= k <= 9 && i <= |replies|
    requires k >= 4 ==> s.mfgID.Some?
    ensures var o := Drive(k, s, replies, i, ops);
      && (o.status == Waiting ==> |o.ops| == |ops| + |replies| - i)
      && (|replies| >= i + 10 - k ==> o.status != Waiting)
    decreases 10 - k
  {
    if i < |replies| && !(replies[i].Failed? && !s.optionalCv) {
      var seen := if replies[i].Ok? then s.(optionalCv := false) else s;
      var t := Step(k, seen, replies[i].value);
      if t.action.Issue? {
        DriveWaits(k + 1, t.next, replies, i + 1, ops + [t.action.op]);
      }
    }
  }

  /** Every run issues at most eight operations, starting with the read of
      CV8; given eight replies it always ends. */
  lemma RunTerminates(replies: seq<Reply>)
    ensures 1 <= |Run(replies).ops| <= 8
    ensures Run(replies).ops[0] == Read(8)
    ensures |replies| >= 8 ==> Run(replies).status != Waiting
  {
    RunStart(replies);
    DriveAppends(2, Initial, replies, 0, [Read(8)]);
    DriveWaits(2, Initial, replies, 0, [Read(8)]);
  }

  /** From step 3 on, the manufacturer and its raw code never change again;
      step 3 sets the model from the reply it is given, and from step 4 on
      the model never changes either. */
  lemma {:induction false} DriveKeepsIdentity(k: nat, s: Session, replies: seq<Reply>, i: nat, ops: seq<CvOp>)
    requires 3 <= k <= 9
    requires k >= 4 ==> s.mfgID.Some?
    ensures var o := Drive(k, s, replies, i, ops);
      && o.session.mfgID == s.mfgID
      && o.session.intMfg == s.intMfg
      && (k >= 4 ==> o.session.modelID == s.modelID)
      && (k == 3 && i < |replies| && replies[i].Ok? ==> o.session.modelID == replies[i].value)
    decreases 10 - k
  {
    if i < |replies| && !(replies[i].Failed? && !s.optionalCv) {
      var seen := if replies[i].Ok? then s.(optionalCv := false) else s;
      var t := Step(k, seen, replies[i].value);
      if t.action.Issue? {
        DriveKeepsIdentity(k + 1, t.next, replies, i + 1, ops + [t.action.op]);
      }
    }
  }

  /** The reply to the last operation of o failed, and that operation was
      not marked optional. */
  predicate FailedUnmarked(o: Outcome, replies: seq<Reply>)
  {
    1 <= |o.ops| <= |replies| && replies[|o.ops| - 1].Failed? && !o.session.optionalCv
  }

  /** A run stops unhandled only at a failed reply to an operation that was
      not marked optional: the reply to the last operation issued failed and
      the flag was clear. */
  lemma {:induction false} DriveUnhandled(k: nat, s: Session, replies: seq<Reply>, i: nat, ops: seq<CvOp>)
    requires 2 <= k <= 9
    requires k >= 4 ==> s.mfgID.Some?
    requires |ops| == i + 1
    ensures var o := Drive(k, s, replies, i, ops);
      o.status == Unhandled ==> FailedUnmarked(o, replies)
    decreases 10 - k
  {
    if i < |replies| && !(replies[i].Failed? && !s.optionalCv) {
      var seen := if replies[i].Ok? then s.(optionalCv := false) else s;
      var t := Step(k, seen, replies[i].value);
      if t.action.Issue? {
        DriveUnhandled(k + 1, t.next, replies, i + 1, ops + [t.action.op]);
      }
    }
  }

  /** A run whose remaining replies all succeed is never unhandled. */
  lemma {:induction false} DriveAllOk(k: nat, s: Session, replies: seq<Reply>, i: nat, ops: seq<CvOp>)
    requires 2 <= k <= 9
    requires k >= 4 ==> s.mfgID.Some?
    requires forall j :: i <= j < |replies| ==> replies[j].Ok?
    ensures Drive(k, s, replies, i, ops).status != Unhandled
    decreases 10 - k
  {
    if i < |replies| {
      var t := Step(k, s.(optionalCv := false), replies[i].value);
      if t.action.Issue? {
        DriveAllOk(k + 1, t.next, replies, i + 1, ops + [t.action.op]);
      }
    }
  }

  /** Replies answer operations in order (reply j answers operation j), so a
      whole run ends unhandled only when the reply to its last operation is a
      failure that was not optional, and never when every reply succeeds. */
  lemma RunUnhandled(replies: seq<Reply>)
    ensures var o := Run(replies);
      && (o.status == Unhandled ==>
            1 <= |o.ops| <= |replies| && replies[|o.ops| - 1].Failed? && !o.session.optionalCv)
      && ((forall j :: 0 <= j < |replies| ==> replies[j].Ok?) ==> o.status != Unhandled)
  {
    RunStart(replies);
    DriveUnhandled(2, Initial, replies, 0, [Read(8)]);
    if forall j :: 0 <= j < |replies| ==> replies[j].Ok? {
      DriveAllOk(2, Initial, replies, 0, [Read(8)]);
    }
  }

  /** A run starts at step 2 on the fresh session, after the read of CV8. */
  lemma RunStart(replies: seq<Reply>)
    ensures Run(replies) == Drive(2, Initial, replies, 0, [Read(8)])
  {
  }

  /** One step of the driver, given what the step does with the reply: a
      successful reply clears the optional-CV flag first, and a failed one
      is passed on only while the flag is set. */
  lemma DriveStep(k: nat, s: Session, replies: seq<Reply>, i: nat, ops: seq<CvOp>, next: Session, action: Action)
    requires 2 <= k <= 9
    requires k >= 4 ==> s.mfgID.Some?
    requires i < |replies| && (replies[i].Ok? || s.optionalCv)
    requires Step(k, if replies[i].Ok? then s.(optionalCv := false) else s, replies[i].value) == Transition(next, action)
    ensures action.Issue? ==> k < 9 && (k + 1 >= 4 ==> next.mfgID.Some?)
    ensures Drive(k, s, replies, i, ops) ==
      match action
      case Finish => Outcome(ops, next, Finished)
      case Issue(op) => Drive(k + 1, next, replies, i + 1, ops + [op])
  {
  }

  /** A failed reply while the flag is clear stops the run where it is. */
  lemma DriveFailedHalts(k: nat, s: Session, replies: seq<Reply>, i: nat, ops: seq<CvOp>)
    requires 2 <= k <= 9
    requires k >= 4 ==> s.mfgID.Some?
    requires i < |replies| && replies[i].Failed? && !s.optionalCv
    ensures Drive(k, s, replies, i, ops) == Outcome(ops, s, Unhandled)
  {
  }
}
