/** Whole runs of service calls on a release-driven route, and where the code itself leaves the safe ground. */
module FlowRuns {
  import opened Common
  import opened Flow
  import opened Sums
  import opened FlowInvariant
  import opened FlowMoves
  import opened FlowCombine

  // ---- approving a log ----

  /** Output of order `o` still waiting besides log `l`. */
  function OtherWaiting(p: Plant, l: nat): nat
    requires l < |p.logs|
  {
    Monus(p.Reported(p.logs[l].order, Waiting), p.logs[l].quantity)
  }

  /** What remains of the order once log `l` is approved too. */
  function RemainingAfter(p: Plant, l: nat): nat
    requires p.Valid() && l < |p.logs|
  {
    Monus(p.orders[p.logs[l].order].quantity, p.Reported(p.logs[l].order, Approved) + p.logs[l].quantity)
  }

  /** The approval splits the rest of a stage task away although other output of it is still waiting for review. */
  predicate SplitsWhileWaiting(p: Plant, l: nat, target: Option<nat>)
    requires p.Valid() && l < |p.logs|
  {
    var o := p.logs[l].order;
    var x := p.orders[o];
    && p.logs[l].completionRequested && OtherWaiting(p, l) > 0 && RemainingAfter(p, l) > 0
    && x.parent.Some? && !p.IsParent(o) && !x.Terminal() && !x.compensation && target.Some?
  }

  lemma NextStageStaysSound(p: Plant, o: nat, now: real)
    requires p.Valid() && p.Has(o)
    ensures Sound(NextStage(p, o, now).plant) <==> Sound(p)
  {
    NextStageKeepsTasks(p, o, now);
    SoundIffSameTasks(p, NextStage(p, o, now).plant);
  }

  lemma SetEndStaysSound(p: Plant, o: nat, now: real)
    requires p.Valid() && p.Has(o)
    ensures Sound(p.Set(o, p.orders[o].(end := EndBy(p.orders[o].end, now)))) <==> Sound(p)
  {
    var y := p.orders[o].(end := EndBy(p.orders[o].end, now));
    SetKeepsTasks(p, o, y);
    SoundIffSameTasks(p, p.Set(o, y));
  }

  lemma FinishStaysSound(p: Plant, o: nat, now: real)
    requires p.Valid() && p.Has(o)
    ensures Sound(FinishIfCovered(p, o, now).plant) <==> Sound(p)
  {
    SetEndStaysSound(p, o, now);
    NextStageStaysSound(p.Set(o, p.orders[o].(end := EndBy(p.orders[o].end, now))), o, now);
  }

  lemma ReviewedSums(p: Plant, l: nat)
    requires p.Valid() && l < |p.logs| && p.logs[l].status == Waiting
    ensures var q, o := SetLog(p, l, Approved), p.logs[l].order;
      && q.Reported(o, Approved) == p.Reported(o, Approved) + p.logs[l].quantity
      && q.Reported(o, Waiting) == OtherWaiting(p, l)
  {
    LogSumUpdate(p.logs, l, Approved, p.logs[l].order, Approved);
    LogSumUpdate(p.logs, l, Approved, p.logs[l].order, Waiting);
  }

  /** Splitting off all that is not approved is sound exactly when nothing else waits, for a task that can be split. */
  lemma SplitRestExactly(q: Plant, o: nat, machine: nat, finish: Option<real>, slot: Slot, now: real)
    requires Sound(q) && q.Has(o)
    ensures var rest := Monus(q.orders[o].quantity, q.Reported(o, Approved));
      Sound(Split(q, o, rest, machine, finish, slot, now).plant) <==>
        (rest == 0 || q.IsParent(o) || q.orders[o].Terminal() || q.orders[o].parent.None?
         || q.Reported(o, Waiting) == 0)
  {
    SplitSoundExactly(q, o, Monus(q.orders[o].quantity, q.Reported(o, Approved)), machine, finish, slot, now);
  }

  /** The split away from waiting output, seen after the approval itself. */
  predicate SplitsOutput(p: Plant, o: nat, completion: bool, target: Option<nat>)
    requires p.Has(o)
  {
    var x := p.orders[o];
    && completion && p.Reported(o, Waiting) > 0 && p.Reported(o, Approved) < x.quantity
    && x.parent.Some? && !p.IsParent(o) && !x.Terminal() && !x.compensation && target.Some?
  }

  lemma AfterApprovalSoundExactly(p: Plant, o: nat, completion: bool, target: Option<nat>, slot: Slot, now: real)
    requires Sound(p) && p.Has(o)
    ensures Sound(AfterApproval(p, o, completion, target, slot, now).plant) <==> !SplitsOutput(p, o, completion, target)
  {
    if target.Some? {
      SplitAfterApproval(p, o, completion, target.value, slot, now);
    }
    if completion {
      var x := p.orders[o];
      SetEndStaysSound(p, o, now);
      NextStageStaysSound(p.Set(o, x.(end := EndBy(x.end, now))), o, now);
      CompletionCases(p, o, target, slot, now);
    } else {
      FinishStaysSound(p, o, now);
      PartialCases(p, o, target, slot, now);
    }
  }

  /** The ways an approval with a completion request can go. */
  lemma CompletionCases(p: Plant, o: nat, target: Option<nat>, slot: Slot, now: real)
    requires p.Valid() && p.Has(o)
    ensures var x := p.orders[o];
      var rest := Monus(x.quantity, p.Reported(o, Approved));
      AfterApproval(p, o, true, target, slot, now).plant ==
        if x.Inactive() then p
        else if rest == 0 then NextStage(p.Set(o, x.(end := EndBy(x.end, now))), o, now).plant
        else if x.compensation || target.None? then p
        else
          var s := Split(p, o, rest, target.value, Some(now), slot, now);
          if s.Failed? then s.plant else NextStage(s.plant, o, now).plant
  {
  }

  /** The ways an approval of partial output can go. */
  lemma PartialCases(p: Plant, o: nat, target: Option<nat>, slot: Slot, now: real)
    requires p.Valid() && p.Has(o)
    ensures var x := p.orders[o];
      var rest := Monus(x.quantity, p.Reported(o, Approved));
      AfterApproval(p, o, false, target, slot, now).plant ==
        if x.Inactive() then p
        else if rest > 0 && p.Reported(o, Waiting) == 0 && !p.IsParent(o) then
          if x.compensation || target.None? then p
          else
            var s := Split(p, o, rest, target.value, Some(now), slot, now);
            if s.Failed? then FinishIfCovered(s.plant, o, now).plant else s.plant
        else FinishIfCovered(p, o, now).plant
  {
  }

  lemma SplitAfterApproval(p: Plant, o: nat, completion: bool, machine: nat, slot: Slot, now: real)
    requires Sound(p) && p.Has(o)
    ensures var s := Split(p, o, Monus(p.orders[o].quantity, p.Reported(o, Approved)), machine, Some(now), slot, now);
      var safe := p.orders[o].quantity <= p.Reported(o, Approved) || p.IsParent(o) || p.orders[o].Terminal()
                  || p.orders[o].parent.None? || p.Reported(o, Waiting) == 0;
      && (Sound(s.plant) <==> safe) && (Sound(NextStage(s.plant, o, now).plant) <==> safe)
      && (Sound(FinishIfCovered(s.plant, o, now).plant) <==> safe)
  {
    var s := Split(p, o, Monus(p.orders[o].quantity, p.Reported(o, Approved)), machine, Some(now), slot, now);
    SplitRestExactly(p, o, machine, Some(now), slot, now);
    NextStageStaysSound(s.plant, o, now);
    FinishStaysSound(s.plant, o, now);
  }

  /** Approving a waiting log keeps the route sound exactly when it does not split while other output waits. */
  lemma ApproveSoundExactly(p: Plant, l: nat, target: Option<nat>, slot: Slot, now: real)
    requires Sound(p) && l < |p.logs| && p.logs[l].status == Waiting
    ensures Sound(ApproveLog(p, l, target, slot, now).plant) <==> !SplitsWhileWaiting(p, l, target)
  {
    ReviewKeepsSound(p, l, Approved);
    ReviewedSums(p, l);
    AfterApprovalSoundExactly(SetLog(p, l, Approved), p.logs[l].order, p.logs[l].completionRequested, target, slot,
                              now);
  }

  // ---- reviewing a log twice ----

  lemma SetLogSoundExactly(p: Plant, l: nat, s: LogStatus)
    requires Sound(p) && l < |p.logs|
    ensures Sound(SetLog(p, l, s)) <==> TaskSound(SetLog(p, l, s), p.logs[l].order)
  {
    var q := SetLog(p, l, s);
    SameOrdersStayBacked(p, q);
    forall i | 0 <= i < |q.orders| && i != p.logs[l].order
      ensures TaskSound(q, i)
    {
      assert TaskSound(p, i);
      LogSumUpdate(p.logs, l, s, i, Approved);
      LogSumUpdate(p.logs, l, s, i, Waiting);
    }
  }

  /** Rejecting an approved log, which the code allows, is sound exactly when the output was not released yet. */
  lemma RejectApprovedSoundExactly(p: Plant, l: nat)
    requires Sound(p) && l < |p.logs| && p.logs[l].status == Approved
    ensures var x := p.orders[p.logs[l].order];
      Sound(RejectLog(p, l).plant) <==>
        (x.parent.Some? ==> x.released + p.logs[l].quantity <= p.Reported(p.logs[l].order, Approved))
  {
    SetLogSoundExactly(p, l, Rejected);
    assert TaskSound(p, p.logs[l].order);
    LogSumUpdate(p.logs, l, Rejected, p.logs[l].order, Approved);
    LogSumUpdate(p.logs, l, Rejected, p.logs[l].order, Waiting);
  }

  /** Order `o` is a stage task with more reported than it plans, or canceled with output. */
  predicate Overfull(p: Plant, o: nat)
    requires p.Has(o)
  {
    var x := p.orders[o];
    var reported := p.Reported(o, Approved) + p.Reported(o, Waiting);
    x.parent.Some? && (x.quantity < reported || (x.Inactive() && 0 < reported))
  }

  lemma OverfullIsUnsound(p: Plant, o: nat)
    requires p.Has(o)
    ensures Overfull(p, o) ==> !Sound(p)
  {
    assert Overfull(p, o) ==> !TaskSound(p, o);
  }

  /** Splitting takes quantity from an order but none of its output. */
  lemma SplitLeavesOverfull(p: Plant, o: nat, quantity: int, machine: nat, finish: Option<real>, slot: Slot, now: real)
    requires p.Valid() && p.Has(o) && Overfull(p, o)
    ensures !Sound(Split(p, o, quantity, machine, finish, slot, now).plant)
  {
    var z := Split(p, o, quantity, machine, finish, slot, now).plant;
    if Splittable(p, o, quantity) {
      var n, y, w := SplitEffect(p, o, quantity, machine, finish, slot, now);
      assert z.orders[o].quantity <= p.orders[o].quantity;
    }
    OverfullIsUnsound(z, o);
  }

  lemma AfterApprovalOfOverfull(p: Plant, o: nat, completion: bool, target: Option<nat>, slot: Slot, now: real)
    requires p.Valid() && p.Has(o) && Overfull(p, o)
    ensures !Sound(AfterApproval(p, o, completion, target, slot, now).plant)
  {
    OverfullIsUnsound(p, o);
    if target.Some? {
      SplitRestOfOverfull(p, o, target.value, slot, now);
    }
    if completion {
      SetEndStaysSound(p, o, now);
      NextStageStaysSound(p.Set(o, p.orders[o].(end := EndBy(p.orders[o].end, now))), o, now);
      CompletionCases(p, o, target, slot, now);
    } else {
      FinishStaysSound(p, o, now);
      PartialCases(p, o, target, slot, now);
    }
  }

  lemma SplitRestOfOverfull(p: Plant, o: nat, machine: nat, slot: Slot, now: real)
    requires p.Valid() && p.Has(o) && Overfull(p, o)
    ensures var s := Split(p, o, Monus(p.orders[o].quantity, p.Reported(o, Approved)), machine, Some(now), slot,
                           now).plant;
      !Sound(s) && !Sound(NextStage(s, o, now).plant) && !Sound(FinishIfCovered(s, o, now).plant)
  {
    var rest := Monus(p.orders[o].quantity, p.Reported(o, Approved));
    var s := Split(p, o, rest, machine, Some(now), slot, now);
    SplitLeavesOverfull(p, o, rest, machine, Some(now), slot, now);
    NextStageStaysSound(s.plant, o, now);
    FinishStaysSound(s.plant, o, now);
  }

  /** The order still has room for the output of log `l`. */
  predicate HasRoomFor(p: Plant, l: nat)
    requires p.Valid() && l < |p.logs|
  {
    var x, o := p.orders[p.logs[l].order], p.logs[l].order;
    var reported := p.Reported(o, Approved) + p.Reported(o, Waiting) + p.logs[l].quantity;
    x.parent.Some? ==> reported <= x.quantity && (x.Inactive() ==> reported == 0)
  }

  lemma RecountSoundExactly(p: Plant, l: nat)
    requires Sound(p) && l < |p.logs| && p.logs[l].status == Rejected
    ensures Sound(SetLog(p, l, Approved)) <==> HasRoomFor(p, l)
    ensures Overfull(SetLog(p, l, Approved), p.logs[l].order) <==> !HasRoomFor(p, l)
  {
    SetLogSoundExactly(p, l, Approved);
    assert TaskSound(p, p.logs[l].order);
    LogSumUpdate(p.logs, l, Approved, p.logs[l].order, Approved);
    LogSumUpdate(p.logs, l, Approved, p.logs[l].order, Waiting);
  }

  /**
   * Approving a rejected log, which the code allows, is sound exactly when the order has room for its output
   * and the call does not split the order while other output is waiting.
   */
  lemma ApproveRejectedSoundExactly(p: Plant, l: nat, target: Option<nat>, slot: Slot, now: real)
    requires Sound(p) && l < |p.logs| && p.logs[l].status == Rejected
    ensures Sound(ApproveLog(p, l, target, slot, now).plant) <==>
      HasRoomFor(p, l) && !SplitsOutput(SetLog(p, l, Approved), p.logs[l].order, p.logs[l].completionRequested, target)
  {
    var q, o, completion := SetLog(p, l, Approved), p.logs[l].order, p.logs[l].completionRequested;
    RecountSoundExactly(p, l);
    if HasRoomFor(p, l) {
      AfterApprovalSoundExactly(q, o, completion, target, slot, now);
    } else {
      AfterApprovalOfOverfull(q, o, completion, target, slot, now);
    }
  }

  // ---- runs ----

  datatype Call =
    | Report(order: nat, quantity: int, completion: bool, now: real)
    | ApproveCall(log: nat, target: Option<nat>, slot: Slot, now: real)
    | RejectCall(log: nat)
    | SplitCall(order: nat, quantity: int, machine: nat, finish: Option<real>, slot: Slot, now: real)
    | CancelCall(order: nat, chosen: Option<nat>, now: real)
    | CombineCall(ids: seq<nat>, order: nat, now: real)
    | ReleaseCall(order: nat, quantity: int, at: Option<nat>)
    | MoveCall(order: nat, status: Status)
    | SyncCall(order: nat, now: real)
    | ReceiptCall(order: nat)
    | CloseCall(order: nat, ready: bool, now: real)
    | CompensateCall(check: nat, quantity: int)
    | AcceptCall(check: nat, quantity: int)

  ghost predicate DistinctOrders(p: Plant, ids: seq<nat>) {
    (forall i :: 0 <= i < |ids| ==> ids[i] < |p.orders|) && forall i, j :: 0 <= i < j < |ids| ==> ids[i] != ids[j]
  }

  /** The call refers to existing rows; `combine` works on a set of ids. */
  ghost predicate Refers(p: Plant, c: Call) {
    match c
    case ApproveCall(l, _, _, _) => l < |p.logs|
    case RejectCall(l) => l < |p.logs|
    case CompensateCall(k, _) => k < |p.checks|
    case AcceptCall(k, _) => k < |p.checks|
    case CombineCall(ids, o, _) => p.Has(o) && DistinctOrders(p, ids)
    case _ => p.Has(c.order)
  }

  ghost function Apply(p: Plant, c: Call): (q: Plant)
    requires p.Valid() && Refers(p, c)
    ensures q.Valid()
  {
    match c
    case Report(o, n, completion, now) => CreateLog(p, o, n, completion, now).plant
    case ApproveCall(l, target, slot, now) => ApproveLog(p, l, target, slot, now).plant
    case RejectCall(l) => RejectLog(p, l).plant
    case SplitCall(o, n, machine, finish, slot, now) => Split(p, o, n, machine, finish, slot, now).plant
    case CancelCall(s, chosen, now) => CancelSplit(p, s, chosen, now).plant
    case CombineCall(ids, o, now) => Combine(p, ids, o, now).plant
    case ReleaseCall(o, n, machine) => Release(p, o, n, machine).plant
    case MoveCall(o, status) => Transition(p, o, status).plant
    case SyncCall(r, now) => SyncParent(p, r, now).plant
    case ReceiptCall(r) => ConfirmReceipt(p, r).plant
    case CloseCall(r, ready, now) => Close(p, r, ready, now).plant
    case CompensateCall(k, n) => Compensate(p, k, n).plant
    case AcceptCall(k, n) => AcceptScrap(p, k, n).plant
  }

  /** The calls that keep a sound route sound: all of them, but for what the code does not check. */
  ghost predicate Safe(p: Plant, c: Call)
    requires p.Valid() && Refers(p, c)
  {
    match c
    case ApproveCall(l, target, _, _) => SafeApproval(p, l, target)
    case RejectCall(l) =>
      var x := p.orders[p.logs[l].order];
      p.logs[l].status == Approved && x.parent.Some? ==>
        x.released + p.logs[l].quantity <= p.Reported(p.logs[l].order, Approved)
    case SplitCall(o, n, _, _, _, _) => Splittable(p, o, n) ==> Fits(p, o, n)
    case CancelCall(s, chosen, now) =>
      CancelError(p, s, chosen).None? ==> ReturnIsBacked(p, s, ReturnTarget(p, s, chosen).value)
    case ReleaseCall(o, n, machine) => Release(p, o, n, machine).Failed? || p.orders[o].parent.Some?
    case CompensateCall(k, n) => Compensate(p, k, n).Failed? || (0 < n && ReplenishmentIsBacked(p, k, n))
    case _ => true
  }

  /** Nothing waiting is stranded by the approval, and a rejected log still has room. */
  predicate SafeApproval(p: Plant, l: nat, target: Option<nat>)
    requires p.Valid() && l < |p.logs|
  {
    match p.logs[l].status
    case Approved => true
    case Waiting => !SplitsWhileWaiting(p, l, target)
    case Rejected =>
      && HasRoomFor(p, l)
      && !SplitsOutput(SetLog(p, l, Approved), p.logs[l].order, p.logs[l].completionRequested, target)
  }

  lemma ApprovalSoundExactly(p: Plant, l: nat, target: Option<nat>, slot: Slot, now: real)
    requires Sound(p) && l < |p.logs|
    ensures Sound(ApproveLog(p, l, target, slot, now).plant) <==> SafeApproval(p, l, target)
  {
    match p.logs[l].status
    case Approved =>
    case Waiting => ApproveSoundExactly(p, l, target, slot, now);
    case Rejected => ApproveRejectedSoundExactly(p, l, target, slot, now);
  }

  lemma RejectionSoundExactly(p: Plant, l: nat)
    requires Sound(p) && l < |p.logs|
    ensures Sound(RejectLog(p, l).plant) <==> Safe(p, RejectCall(l))
  {
    match p.logs[l].status
    case Approved => RejectApprovedSoundExactly(p, l);
    case Waiting => ReviewKeepsSound(p, l, Rejected);
    case Rejected => assert RejectLog(p, l).plant == p;
  }

  lemma MoveStaysSound(p: Plant, o: nat, status: Status)
    requires Sound(p) && p.Has(o)
    ensures Sound(Transition(p, o, status).plant)
  {
    SoundIffSameTasks(p, Transition(p, o, status).plant);
  }

  lemma SyncStaysSound(p: Plant, r: nat, now: real)
    requires Sound(p) && p.Has(r)
    ensures Sound(SyncParent(p, r, now).plant)
  {
    SyncKeepsTasks(p, r, now);
    SoundIffSameTasks(p, SyncParent(p, r, now).plant);
  }

  lemma SyncKeepsTasks(p: Plant, r: nat, now: real)
    requires p.Valid() && p.Has(r)
    ensures SameTasks(p, SyncParent(p, r, now).plant)
  {
    SyncIsStatusChange(p, r, now);
    StatusChangeKeepsTasks(p, SyncParent(p, r, now).plant, r);
  }

  lemma SyncIsStatusChange(p: Plant, r: nat, now: real)
    requires p.Has(r)
    ensures StatusChange(p, SyncParent(p, r, now).plant, r)
  {
    assert p.orders[r := p.orders[r]] == p.orders;
  }

  lemma ReceiptStaysSound(p: Plant, r: nat)
    requires Sound(p) && p.Has(r)
    ensures Sound(ConfirmReceipt(p, r).plant)
  {
    SoundIffSameTasks(p, ConfirmReceipt(p, r).plant);
  }

  lemma CloseKeepsTasks(p: Plant, r: nat, ready: bool, now: real)
    requires p.Has(r)
    ensures SameTasks(p, Close(p, r, ready, now).plant)
  {
  }

  lemma CloseStaysSound(p: Plant, r: nat, ready: bool, now: real, q: Plant)
    requires Sound(p) && p.Has(r)
    ensures q == Close(p, r, ready, now).plant ==> Sound(q)
  {
    CloseKeepsTasks(p, r, ready, now);
    SoundIffSameTasks(p, Close(p, r, ready, now).plant);
  }

  lemma AcceptStaysSound(p: Plant, k: nat, n: int)
    requires Sound(p) && k < |p.checks|
    ensures Sound(AcceptScrap(p, k, n).plant)
  {
    AcceptKeepsTasks(p, k, n);
    SoundIffSameTasks(p, AcceptScrap(p, k, n).plant);
  }

  lemma AcceptKeepsTasks(p: Plant, k: nat, n: int)
    requires p.Valid() && k < |p.checks|
    ensures SameTasks(p, AcceptScrap(p, k, n).plant)
  {
  }

  /** Any one call keeps a sound route sound exactly if it is safe. */
  lemma CallSoundExactly(p: Plant, c: Call, q: Plant)
    requires Sound(p) && Refers(p, c) && q == Apply(p, c)
    ensures Sound(q) <==> Safe(p, c)
  {
    match c
    case Report(o, n, completion, now) => CreateLogKeepsSound(p, o, n, completion, now);
    case ApproveCall(l, target, slot, now) => ApprovalSoundExactly(p, l, target, slot, now);
    case RejectCall(l) => RejectionSoundExactly(p, l);
    case SplitCall(o, n, machine, finish, slot, now) => SplitSoundExactly(p, o, n, machine, finish, slot, now);
    case CancelCall(s, chosen, now) => CancelSplitSoundExactly(p, s, chosen, now);
    case CombineCall(ids, o, now) => CombineKeepsSound(p, ids, o, now);
    case ReleaseCall(o, n, machine) => ReleaseSoundExactly(p, o, n, machine);
    case MoveCall(o, status) => MoveStaysSound(p, o, status);
    case SyncCall(r, now) => SyncStaysSound(p, r, now);
    case ReceiptCall(r) => ReceiptStaysSound(p, r);
    case CloseCall(r, ready, now) => CloseStaysSound(p, r, ready, now, q);
    case CompensateCall(k, n) => CompensateSoundExactly(p, k, n);
    case AcceptCall(k, n) => AcceptStaysSound(p, k, n);
  }

  /** `q` is reached from `p` by the calls, each safe when it is made. */
  ghost predicate SafeRun(p: Plant, calls: seq<Call>, q: Plant)
    decreases |calls|
  {
    if calls == [] then p == q
    else p.Valid() && Refers(p, calls[0]) && Safe(p, calls[0]) && SafeRun(Apply(p, calls[0]), calls[1..], q)
  }

  /**
   * Over every run of safe calls: per task released <= approved <= reported <= quantity, and no stage outruns an
   * earlier one.
   */
  lemma {:induction false} RunsNeverCreateOutput(p: Plant, calls: seq<Call>, q: Plant, r: nat, j: nat, k: nat)
    requires Sound(p) && SafeRun(p, calls, q) && j <= k
    ensures Sound(q) && Sum(Output(q, r, k)) <= Sum(Output(q, r, j))
    decreases |calls|
  {
    if calls == [] {
      OutputBoundedByEarlierStages(p, r, j, k);
    } else {
      CallSoundExactly(p, calls[0], Apply(p, calls[0]));
      RunsNeverCreateOutput(Apply(p, calls[0]), calls[1..], q, r, j, k);
    }
  }

  /** A route starts sound: nothing reported, nothing released, work planned at the first stage only. */
  lemma FreshRouteIsSound(p: Plant)
    requires p.Valid() && p.logs == []
    requires forall i :: 0 <= i < |p.orders| && p.orders[i].parent.Some? ==>
      p.orders[i].stage == 0 && p.orders[i].released == 0
    ensures Sound(p)
  {
    forall r: nat, k: nat | true
      ensures BackedAt(p, r, k)
    {
      SumMonotone(Planned(p, r, k + 1), Released(p, r, k));
    }
  }

  // ---- concrete routes that a review makes unsound ----

  /** A route of one task of ten units, with `released` of them passed on and two logs. */
  function OneTask(released: nat, first: Log, second: Log): Plant {
    var root := Order(None, None, 0, 0, 0, false, None, false, 10, None, 0, 0, InProgress, false, false, false,
                      NotRequested, None, None, 0.0);
    Plant(2, [root, root.(parent := Some(0), released := released)], [first, second], [])
  }

  lemma OneTaskReports(released: nat, first: Log, second: Log, o: nat, s: LogStatus)
    ensures OneTask(released, first, second).Reported(o, s)
         == (if first.order == o && first.status == s then first.quantity else 0)
            + if second.order == o && second.status == s then second.quantity else 0
  {
    LogSumAppend([], first, o, s);
    LogSumAppend([first], second, o, s);
    assert [] + [first] == [first] && [first] + [second] == [first, second];
  }

  lemma OneTaskIsSound(released: nat, first: Log, second: Log)
    requires first.order == second.order == 1
    ensures var p := OneTask(released, first, second);
      released <= p.Reported(1, Approved) && p.Reported(1, Approved) + p.Reported(1, Waiting) <= 10 ==> Sound(p)
  {
    var p := OneTask(released, first, second);
    forall r: nat, k: nat | true
      ensures BackedAt(p, r, k)
    {
      SumMonotone(Planned(p, r, k + 1), Released(p, r, k));
    }
  }

  /** Three units and five are waiting; approving the three, reported as the end of the work, splits seven away. */
  lemma WaitingOutputIsStranded(slot: Slot, now: real)
    ensures var p := OneTask(0, Log(1, 3, Waiting, true), Log(1, 5, Waiting, false));
      Sound(p) && p.logs[0].status == Waiting && !Sound(ApproveLog(p, 0, Some(7), slot, now).plant)
  {
    var a, b := Log(1, 3, Waiting, true), Log(1, 5, Waiting, false);
    OneTaskReports(0, a, b, 1, Waiting);
    OneTaskReports(0, a, b, 1, Approved);
    OneTaskIsSound(0, a, b);
    ApproveSoundExactly(OneTask(0, a, b), 0, Some(7), slot, now);
  }

  /** Five units are approved and passed on; rejecting them afterwards leaves a release of nothing. */
  lemma ReleasedOutputIsRejected()
    ensures var p := OneTask(5, Log(1, 5, Approved, false), Log(1, 2, Waiting, false));
      Sound(p) && p.logs[0].status == Approved && !Sound(RejectLog(p, 0).plant)
  {
    var a, b := Log(1, 5, Approved, false), Log(1, 2, Waiting, false);
    OneTaskReports(5, a, b, 1, Waiting);
    OneTaskReports(5, a, b, 1, Approved);
    OneTaskIsSound(5, a, b);
    RejectApprovedSoundExactly(OneTask(5, a, b), 0);
  }

  /** Three units were rejected and eight are waiting: there is no room to approve the three after all. */
  lemma RejectedOutputHasNoRoom(slot: Slot, now: real)
    ensures var p := OneTask(0, Log(1, 3, Rejected, false), Log(1, 8, Waiting, false));
      Sound(p) && p.logs[0].status == Rejected && !Sound(ApproveLog(p, 0, Some(7), slot, now).plant)
  {
    var a, b := Log(1, 3, Rejected, false), Log(1, 8, Waiting, false);
    OneTaskReports(0, a, b, 1, Waiting);
    OneTaskReports(0, a, b, 1, Approved);
    OneTaskIsSound(0, a, b);
    ApproveRejectedSoundExactly(OneTask(0, a, b), 0, Some(7), slot, now);
  }

  /**
   * Three units were rejected as the end of the work and five are waiting: there is room, but the approval splits seven
   * away.
   */
  lemma RejectedOutputStrandsWaiting(slot: Slot, now: real)
    ensures var p := OneTask(0, Log(1, 3, Rejected, true), Log(1, 5, Waiting, false));
      Sound(p) && p.logs[0].status == Rejected && HasRoomFor(p, 0) && !Sound(ApproveLog(p, 0, Some(7), slot, now).plant)
  {
    var a, b := Log(1, 3, Rejected, true), Log(1, 5, Waiting, false);
    OneTaskReports(0, a, b, 1, Waiting);
    OneTaskReports(0, a, b, 1, Approved);
    OneTaskIsSound(0, a, b);
    var p := OneTask(0, a, b);
    LogSumUpdate(p.logs, 0, Approved, 1, Approved);
    LogSumUpdate(p.logs, 0, Approved, 1, Waiting);
    ApproveRejectedSoundExactly(p, 0, Some(7), slot, now);
  }
}
