/** The teacher's wallet figures of the payment screen: earnings, money
    paid out, money awaiting payout and the withdrawable balance, derived
    on every render from the session and withdrawal records. */
module Ledger {
  import opened Records

  // ----- The filters and reductions, as the source writes them -----

  /** `s => s.ustazId === user.id` */
  function SessionBy(ustazId: string): Session -> bool {
    (s: Session) => s.ustazId == ustazId
  }

  /** `w => w.ustazId === user.id` */
  function WithdrawalBy(ustazId: string): Withdrawal -> bool {
    (w: Withdrawal) => w.ustazId == ustazId
  }

  /** `w => w.status === st` */
  function WithStatus(st: WithdrawalStatus): Withdrawal -> bool {
    (w: Withdrawal) => w.status == st
  }

  /** `reduce((sum, s) => sum + s.fee, 0)` */
  function FeeTotal(sessions: seq<Session>): int {
    if sessions == [] then 0 else sessions[0].fee + FeeTotal(sessions[1..])
  }

  /** `reduce((sum, w) => sum + w.amount, 0)` */
  function AmountTotal(ws: seq<Withdrawal>): int {
    if ws == [] then 0 else ws[0].amount + AmountTotal(ws[1..])
  }

  // ----- Reference definitions: one conditional sum per figure -----

  /** Sum of `fee` over the sessions taught by `ustazId`. */
  function EarningsOf(sessions: seq<Session>, ustazId: string): int {
    if sessions == [] then 0
    else (if sessions[0].ustazId == ustazId then sessions[0].fee else 0) + EarningsOf(sessions[1..], ustazId)
  }

  /** Number of sessions taught by `ustazId`. */
  function SessionCountOf(sessions: seq<Session>, ustazId: string): nat {
    if sessions == [] then 0
    else (if sessions[0].ustazId == ustazId then 1 else 0) + SessionCountOf(sessions[1..], ustazId)
  }

  /** What one withdrawal adds to the `st` total of teacher `ustazId`. */
  function Share(w: Withdrawal, ustazId: string, st: WithdrawalStatus): int {
    if w.ustazId == ustazId && w.status == st then w.amount else 0
  }

  /** Sum of `amount` over the withdrawals of `ustazId` whose status is `st`. */
  function StatusSumOf(ws: seq<Withdrawal>, ustazId: string, st: WithdrawalStatus): int {
    if ws == [] then 0 else Share(ws[0], ustazId, st) + StatusSumOf(ws[1..], ustazId, st)
  }

  /** The four figures shown on the teacher's wallet card. */
  datatype Figures = Figures(totalEarnings: int, totalWithdrawn: int, pendingWithdrawal: int, currentBalance: int)

  /** The teacher branch of the payment screen: filter the records by the
      teacher's id, the withdrawals again by status, and reduce. */
  function TeacherLedger(sessions: seq<Session>, withdrawals: seq<Withdrawal>, ustazId: string): (r: Figures)
    ensures r.totalEarnings == EarningsOf(sessions, ustazId)
    ensures r.totalWithdrawn == StatusSumOf(withdrawals, ustazId, Completed)
    ensures r.pendingWithdrawal == StatusSumOf(withdrawals, ustazId, Pending)
    ensures r.currentBalance + r.totalWithdrawn + r.pendingWithdrawal == r.totalEarnings
  {
    var mySessions := Filter(sessions, SessionBy(ustazId));
    var myWithdrawals := Filter(withdrawals, WithdrawalBy(ustazId));
    var totalEarnings := FeeTotal(mySessions);
    var totalWithdrawn := AmountTotal(Filter(myWithdrawals, WithStatus(Completed)));
    var pendingWithdrawal := AmountTotal(Filter(myWithdrawals, WithStatus(Pending)));
    FilteredEarnings(sessions, ustazId);
    FilteredStatusSum(withdrawals, ustazId, Completed);
    FilteredStatusSum(withdrawals, ustazId, Pending);
    Figures(totalEarnings, totalWithdrawn, pendingWithdrawal, totalEarnings - totalWithdrawn - pendingWithdrawal)
  }

  // ----- The filter/reduce pipeline computes the reference sums -----

  lemma {:induction false} FilteredEarnings(sessions: seq<Session>, ustazId: string)
    ensures FeeTotal(Filter(sessions, SessionBy(ustazId))) == EarningsOf(sessions, ustazId)
  {
    if sessions != [] {
      var p := SessionBy(ustazId);
      var rest := Filter(sessions[1..], p);
      FilteredEarnings(sessions[1..], ustazId);
      if p(sessions[0]) {
        assert Filter(sessions, p) == [sessions[0]] + rest;
        assert ([sessions[0]] + rest)[1..] == rest;
      } else {
        assert Filter(sessions, p) == rest;
      }
    }
  }

  lemma {:induction false} FilteredSessionCount(sessions: seq<Session>, ustazId: string)
    ensures |Filter(sessions, SessionBy(ustazId))| == SessionCountOf(sessions, ustazId)
  {
    if sessions != [] {
      var p := SessionBy(ustazId);
      FilteredSessionCount(sessions[1..], ustazId);
      if p(sessions[0]) {
        assert Filter(sessions, p) == [sessions[0]] + Filter(sessions[1..], p);
      } else {
        assert Filter(sessions, p) == Filter(sessions[1..], p);
      }
    }
  }

  lemma {:induction false} FilteredStatusSum(ws: seq<Withdrawal>, ustazId: string, st: WithdrawalStatus)
    ensures AmountTotal(Filter(Filter(ws, WithdrawalBy(ustazId)), WithStatus(st))) == StatusSumOf(ws, ustazId, st)
  {
    if ws != [] {
      var p, q := WithdrawalBy(ustazId), WithStatus(st);
      var mineRest := Filter(ws[1..], p);
      FilteredStatusSum(ws[1..], ustazId, st);
      if p(ws[0]) {
        assert Filter(ws, p) == [ws[0]] + mineRest;
        assert ([ws[0]] + mineRest)[0] == ws[0];
        assert ([ws[0]] + mineRest)[1..] == mineRest;
        var both := Filter(mineRest, q);
        if q(ws[0]) {
          assert Filter([ws[0]] + mineRest, q) == [ws[0]] + both;
          assert ([ws[0]] + both)[1..] == both;
        } else {
          assert Filter([ws[0]] + mineRest, q) == both;
        }
      } else {
        assert Filter(ws, p) == mineRest;
      }
    }
  }

  // ----- The reference sums over concatenations -----

  lemma {:induction false} EarningsAppend(a: seq<Session>, b: seq<Session>, ustazId: string)
    ensures EarningsOf(a + b, ustazId) == EarningsOf(a, ustazId) + EarningsOf(b, ustazId)
  {
    if a == [] {
      assert a + b == b;
    } else {
      assert (a + b)[0] == a[0];
      assert (a + b)[1..] == a[1..] + b;
      EarningsAppend(a[1..], b, ustazId);
    }
  }

  lemma {:induction false} StatusSumAppend(a: seq<Withdrawal>, b: seq<Withdrawal>, ustazId: string, st: WithdrawalStatus)
    ensures StatusSumOf(a + b, ustazId, st) == StatusSumOf(a, ustazId, st) + StatusSumOf(b, ustazId, st)
  {
    if a == [] {
      assert a + b == b;
    } else {
      assert (a + b)[0] == a[0];
      assert (a + b)[1..] == a[1..] + b;
      StatusSumAppend(a[1..], b, ustazId, st);
    }
  }

  /** Replacing the withdrawal at position `i` changes each status sum by
      the difference of the two records' shares. */
  lemma StatusSumUpdate(ws: seq<Withdrawal>, i: nat, w: Withdrawal, ustazId: string, st: WithdrawalStatus)
    requires i < |ws|
    ensures StatusSumOf(ws[i := w], ustazId, st)
         == StatusSumOf(ws, ustazId, st) - Share(ws[i], ustazId, st) + Share(w, ustazId, st)
  {
    var pre, post := ws[..i], ws[i + 1..];
    assert ws == pre + [ws[i]] + post;
    assert ws[i := w] == pre + [w] + post;
    StatusSumAppend(pre + [ws[i]], post, ustazId, st);
    StatusSumAppend(pre, [ws[i]], ustazId, st);
    StatusSumAppend(pre + [w], post, ustazId, st);
    StatusSumAppend(pre, [w], ustazId, st);
  }

  // ----- Properties of the teacher ledger -----

  /** Adding (or, read backwards, removing) another teacher's session
      anywhere in the records leaves all four figures unchanged. */
  lemma ForeignSessionIgnored(before: seq<Session>, s: Session, after: seq<Session>, ws: seq<Withdrawal>, ustazId: string)
    requires s.ustazId != ustazId
    ensures TeacherLedger(before + [s] + after, ws, ustazId) == TeacherLedger(before + after, ws, ustazId)
  {
    EarningsAppend(before + [s], after, ustazId);
    EarningsAppend(before, [s], ustazId);
    EarningsAppend(before, after, ustazId);
  }

  /** A withdrawal that does not count for this teacher's figures: it is
      another teacher's, or it has status REJECTED. */
  predicate Ignored(w: Withdrawal, ustazId: string) {
    w.ustazId != ustazId || w.status == Rejected
  }

  /** Adding (or removing) an ignored withdrawal anywhere in the records
      leaves all four figures unchanged. */
  lemma IgnoredWithdrawalIgnored(ss: seq<Session>, before: seq<Withdrawal>, w: Withdrawal, after: seq<Withdrawal>, ustazId: string)
    requires Ignored(w, ustazId)
    ensures TeacherLedger(ss, before + [w] + after, ustazId) == TeacherLedger(ss, before + after, ustazId)
  {
    forall st: WithdrawalStatus | st != Rejected
      ensures StatusSumOf(before + [w] + after, ustazId, st) == StatusSumOf(before + after, ustazId, st)
    {
      StatusSumAppend(before + [w], after, ustazId, st);
      StatusSumAppend(before, [w], ustazId, st);
      StatusSumAppend(before, after, ustazId, st);
    }
  }

  /** With this teacher's withdrawal `i` moved from PENDING to REJECTED,
      the balance rises by its amount, which leaves the pending total. */
  lemma RejectingPendingRaisesBalance(ss: seq<Session>, ws: seq<Withdrawal>, i: nat, ustazId: string)
    requires i < |ws| && ws[i].ustazId == ustazId && ws[i].status == Pending
    ensures var before, after := TeacherLedger(ss, ws, ustazId), TeacherLedger(ss, ws[i := ws[i].(status := Rejected)], ustazId);
      && after.currentBalance == before.currentBalance + ws[i].amount
      && after.pendingWithdrawal == before.pendingWithdrawal - ws[i].amount
      && after.totalWithdrawn == before.totalWithdrawn
      && after.totalEarnings == before.totalEarnings
  {
    StatusSumUpdate(ws, i, ws[i].(status := Rejected), ustazId, Completed);
    StatusSumUpdate(ws, i, ws[i].(status := Rejected), ustazId, Pending);
  }

  /** With this teacher's withdrawal `i` moved from PENDING to COMPLETED,
      its amount moves from the pending total to the paid-out total and
      the balance is unchanged. */
  lemma CompletingPendingKeepsBalance(ss: seq<Session>, ws: seq<Withdrawal>, i: nat, ustazId: string)
    requires i < |ws| && ws[i].ustazId == ustazId && ws[i].status == Pending
    ensures var before, after := TeacherLedger(ss, ws, ustazId), TeacherLedger(ss, ws[i := ws[i].(status := Completed)], ustazId);
      && after.currentBalance == before.currentBalance
      && after.pendingWithdrawal == before.pendingWithdrawal - ws[i].amount
      && after.totalWithdrawn == before.totalWithdrawn + ws[i].amount
      && after.totalEarnings == before.totalEarnings
  {
    StatusSumUpdate(ws, i, ws[i].(status := Completed), ustazId, Completed);
    StatusSumUpdate(ws, i, ws[i].(status := Completed), ustazId, Pending);
  }
  /** A worked example for a teacher `t`: three RM 45 sessions, RM 50 paid
      out and RM 20 awaiting payout leave RM 65 (another teacher's session
      and request do not count), and rejecting the pending request brings
      the balance to RM 85. */
  lemma WalletExample(t: string, other: string)
    requires t != other
    ensures var ss := [Session("s1", t, "a", 45), Session("s2", t, "a", 45),
                       Session("s3", t, "b", 45), Session("s4", other, "a", 45)];
            var ws := [Withdrawal("w1", t, 50, Completed), Withdrawal("w2", t, 20, Pending),
                       Withdrawal("w3", other, 30, Pending)];
            && TeacherLedger(ss, ws, t) == Figures(135, 50, 20, 65)
            && TeacherLedger(ss, ws[1 := ws[1].(status := Rejected)], t).currentBalance == 85
  {
    var ss := [Session("s1", t, "a", 45), Session("s2", t, "a", 45),
               Session("s3", t, "b", 45), Session("s4", other, "a", 45)];
    var ws := [Withdrawal("w1", t, 50, Completed), Withdrawal("w2", t, 20, Pending),
               Withdrawal("w3", other, 30, Pending)];
    assert ss[1..][1..][1..][1..] == [];
    assert EarningsOf(ss[1..][1..][1..], t) == 0;
    assert EarningsOf(ss[1..][1..], t) == 45;
    assert EarningsOf(ss[1..], t) == 90;
    assert EarningsOf(ss, t) == 135;
    assert ws[1..][1..][1..] == [];
    forall st: WithdrawalStatus
      ensures StatusSumOf(ws, t, st) == Share(ws[0], t, st) + Share(ws[1], t, st)
    {
      assert StatusSumOf(ws[1..][1..], t, st) == 0;
    }
    assert StatusSumOf(ws, t, Completed) == 50 && StatusSumOf(ws, t, Pending) == 20;
    var f := TeacherLedger(ss, ws, t);
    assert f.totalEarnings == 135 && f.totalWithdrawn == 50 && f.pendingWithdrawal == 20;
    RejectingPendingRaisesBalance(ss, ws, 1, t);
  }
}
