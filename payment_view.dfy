/** The payment screen: one branch per role over the same records (the
    teacher's wallet, the admin's cash-flow tabs, the parent's fee page),
    and the screen's own state (active tab, withdraw modal, payment modal
    with its selected method and processing flag). */
module PaymentView {
  import opened Records
  import opened Ledger

  /** The seed records the screen reads (fixed mock data in the source). */
  datatype Store = Store(
    users: seq<User>,
    students: seq<Student>,
    sessions: seq<Session>,
    payments: seq<Payment>,
    withdrawals: seq<Withdrawal>)

  // ===== Teacher branch =====

  /** The request button is disabled when there is nothing to withdraw. */
  predicate RequestDisabled(balance: int) {
    balance <= 0
  }

  datatype TeacherScreen = TeacherScreen(
    figures: Figures,
    sessionsCompleted: nat,
    requestDisabled: bool,
    amountDefault: int,
    amountMax: int,
    myWithdrawals: seq<Withdrawal>,
    mySessions: seq<Session>)

  /** What the teacher branch derives: the ledger figures, the session
      count, the request button's state, the amount field's default and
      cap, and the two history lists. */
  function TeacherView(store: Store, user: User): (r: TeacherScreen)
    ensures r.figures == TeacherLedger(store.sessions, store.withdrawals, user.id)
    ensures r.requestDisabled <==> r.figures.totalEarnings <= r.figures.totalWithdrawn + r.figures.pendingWithdrawal
    ensures r.amountDefault == r.figures.currentBalance && r.amountMax == r.figures.currentBalance
    ensures !r.requestDisabled ==> 0 < r.amountDefault <= r.amountMax
    ensures r.sessionsCompleted == |r.mySessions| == SessionCountOf(store.sessions, user.id)
    ensures forall s :: multiset(r.mySessions)[s] == if s.ustazId == user.id then multiset(store.sessions)[s] else 0
    ensures forall w :: multiset(r.myWithdrawals)[w] == if w.ustazId == user.id then multiset(store.withdrawals)[w] else 0
  {
    var figures := TeacherLedger(store.sessions, store.withdrawals, user.id);
    var mySessions := Filter(store.sessions, SessionBy(user.id));
    FilteredSessionCount(store.sessions, user.id);
    FilterMultiplicity(store.sessions, SessionBy(user.id));
    FilterMultiplicity(store.withdrawals, WithdrawalBy(user.id));
    TeacherScreen(
      figures,
      |mySessions|,
      RequestDisabled(figures.currentBalance),
      figures.currentBalance,
      figures.currentBalance,
      Filter(store.withdrawals, WithdrawalBy(user.id)),
      mySessions)
  }

  // ===== Admin branch =====

  datatype Tab = Income | Payouts

  /** One row of the fee-payment table. */
  datatype IncomeRow = IncomeRow(payment: Payment, methodLabel: string, paidBadge: bool)

  /** `pay.method || '-'`: an absent or empty method shows as a dash. */
  function MethodLabel(m: Option<string>): (r: string)
    ensures m.Some? && m.value != "" ==> r == m.value
    ensures m.None? || m.value == "" ==> r == "-"
  {
    if m.Some? && m.value != "" then m.value else "-"
  }

  function IncomeRows(payments: seq<Payment>): (r: seq<IncomeRow>)
    ensures |r| == |payments|
    ensures forall i :: 0 <= i < |r| ==>
      && r[i].payment == payments[i]
      && r[i].methodLabel == MethodLabel(payments[i].payMethod)
      && (r[i].paidBadge <==> payments[i].status == Paid)
  {
    if payments == [] then []
    else
      var row := IncomeRow(payments[0], MethodLabel(payments[0].payMethod), payments[0].status == Paid);
      [row] + IncomeRows(payments[1..])
  }

  /** One payout request: the teacher's name (looked up by id, possibly
      missing), the amber "pending" styling, and the reject/approve
      buttons, which carry no handler. */
  datatype PayoutRow = PayoutRow(withdrawal: Withdrawal, ustazName: Option<string>, pendingStyle: bool, resolveControls: bool)

  /** `users.find(u => u.id === ustazId)?.name` */
  function NameOf(users: seq<User>, ustazId: string): (r: Option<string>)
    ensures r.None? <==> forall u :: u in users ==> u.id != ustazId
    ensures r.Some? ==> exists k ::
      && 0 <= k < |users| && users[k].id == ustazId && users[k].name == r.value
      && forall j :: 0 <= j < k ==> users[j].id != ustazId
  {
    match FindFirst(users, (u: User) => u.id == ustazId)
    case None => None
    case Some(k) => Some(users[k].name)
  }

  function PayoutRows(ws: seq<Withdrawal>, users: seq<User>): (r: seq<PayoutRow>)
    ensures |r| == |ws|
    ensures forall i :: 0 <= i < |r| ==>
      && r[i].withdrawal == ws[i]
      && r[i].ustazName == NameOf(users, ws[i].ustazId)
      && (r[i].pendingStyle <==> ws[i].status == Pending)
      && (r[i].resolveControls <==> ws[i].status == Pending)
  {
    if ws == [] then []
    else
      var pending := ws[0].status == Pending;
      [PayoutRow(ws[0], NameOf(users, ws[0].ustazId), pending, pending)] + PayoutRows(ws[1..], users)
  }

  /** Approve/reject controls are shown for exactly the PENDING requests,
      so a COMPLETED or REJECTED request offers no way to resolve it again. */
  lemma ResolveControlsOnlyOnPending(ws: seq<Withdrawal>, users: seq<User>, row: PayoutRow)
    requires row in PayoutRows(ws, users)
    ensures row.withdrawal in ws
    ensures row.resolveControls <==> row.withdrawal.status == Pending
  {
    var rows := PayoutRows(ws, users);
    var i :| 0 <= i < |rows| && rows[i] == row;
    assert row.withdrawal == ws[i];
  }

  datatype AdminScreen = IncomeTab(incomeRows: seq<IncomeRow>) | PayoutsTab(payoutRows: seq<PayoutRow>)

  function AdminView(store: Store, tab: Tab): (r: AdminScreen)
    ensures r.IncomeTab? <==> tab == Income
    ensures r.IncomeTab? ==> r.incomeRows == IncomeRows(store.payments)
    ensures r.PayoutsTab? ==> r.payoutRows == PayoutRows(store.withdrawals, store.users)
  {
    match tab
    case Income => IncomeTab(IncomeRows(store.payments))
    case Payouts => PayoutsTab(PayoutRows(store.withdrawals, store.users))
  }

  // ===== Parent branch =====

  /** `students.filter(s => s.parentId === parentId)` */
  function StudentsOf(students: seq<Student>, parentId: string): (r: seq<Student>)
    ensures forall st :: st in r <==> st in students && st.parentId == parentId
    ensures forall st :: multiset(r)[st] == if st.parentId == parentId then multiset(students)[st] else 0
  {
    FilterMultiplicity(students, (st: Student) => st.parentId == parentId);
    Filter(students, (st: Student) => st.parentId == parentId)
  }

  /** `sessions.filter(s => myStudents.find(stu => stu.id === s.studentId))`:
      the found student is an object, so the test is "some student matches". */
  function SessionsOfStudents(sessions: seq<Session>, myStudents: seq<Student>): (r: seq<Session>)
    ensures forall s :: s in r <==> s in sessions && exists st :: st in myStudents && st.id == s.studentId
    ensures forall s :: multiset(r)[s] == if exists st :: st in myStudents && st.id == s.studentId then multiset(sessions)[s] else 0
  {
    FilterMultiplicity(sessions, (s: Session) => Find(myStudents, (stu: Student) => stu.id == s.studentId).Some?);
    Filter(sessions, (s: Session) => Find(myStudents, (stu: Student) => stu.id == s.studentId).Some?)
  }

  /** `payments.filter(p => p.status === 'PAID')`: the history lists paid
      fees only, in their original order. */
  function PaidHistory(payments: seq<Payment>): (r: seq<Payment>)
    ensures forall p :: p in r <==> p in payments && p.status == Paid
    ensures forall i :: 0 <= i < |r| ==> r[i].status == Paid
    ensures forall p :: multiset(r)[p] == if p.status == Paid then multiset(payments)[p] else 0
  {
    FilterMultiplicity(payments, (p: Payment) => p.status == Paid);
    Filter(payments, (p: Payment) => p.status == Paid)
  }

  /** The history keeps the records' order: the paid fees of an earlier
      stretch of the records are listed before those of a later one. */
  lemma PaidHistoryInOrder(a: seq<Payment>, b: seq<Payment>)
    ensures PaidHistory(a + b) == PaidHistory(a) + PaidHistory(b)
  {
    FilterAppend(a, b, (p: Payment) => p.status == Paid);
  }

  datatype ParentScreen = ParentScreen(myStudents: seq<Student>, mySessions: seq<Session>, history: seq<Payment>)

  function ParentView(store: Store, user: User): (r: ParentScreen)
    ensures forall st :: st in r.myStudents <==> st in store.students && st.parentId == user.id
    ensures forall p :: p in r.history <==> p in store.payments && p.status == Paid
    ensures forall st :: multiset(r.myStudents)[st] == if st.parentId == user.id then multiset(store.students)[st] else 0
    ensures forall p :: multiset(r.history)[p] == if p.status == Paid then multiset(store.payments)[p] else 0
  {
    var myStudents := StudentsOf(store.students, user.id);
    ParentScreen(myStudents, SessionsOfStudents(store.sessions, myStudents), PaidHistory(store.payments))
  }

  /** A parent's sessions are exactly those of a student whose `parentId`
      is the parent's id. */
  lemma ParentSessionsExact(store: Store, user: User, s: Session)
    ensures s in ParentView(store, user).mySessions
        <==> s in store.sessions && exists st :: st in store.students && st.parentId == user.id && st.id == s.studentId
  {
    var mine := StudentsOf(store.students, user.id);
    if s in store.sessions && exists st :: st in store.students && st.parentId == user.id && st.id == s.studentId {
      var st :| st in store.students && st.parentId == user.id && st.id == s.studentId;
      assert st in mine;
    }
  }

  // ===== Payment modal: method tiles =====

  datatype PayMethod = Fpx | Qr | Card | Cash

  /** Position of a method's tile in the modal. */
  function TileIndex(m: PayMethod): (i: nat)
    ensures i < 4
  {
    match m
    case Fpx => 0
    case Qr => 1
    case Card => 2
    case Cash => 3
  }

  /** The highlighted flag of the four tiles FPX, QR, CARD, CASH: exactly
      one is highlighted, the selected method's. */
  function MethodTiles(selected: PayMethod): (r: seq<bool>)
    ensures |r| == 4
    ensures r[TileIndex(selected)]
    ensures forall i, j :: 0 <= i < |r| && 0 <= j < |r| && r[i] && r[j] ==> i == j
  {
    [selected == Fpx, selected == Qr, selected == Card, selected == Cash]
  }

  // ===== The screen =====

  datatype PaymentModal = PaymentModal(tiles: seq<bool>, processing: bool)

  datatype Screen =
    | TeacherBranch(teacher: TeacherScreen, withdrawModalOpen: bool)
    | AdminBranch(admin: AdminScreen)
    | ParentBranch(parent: ParentScreen, paymentModal: Option<PaymentModal>)

  /** The screen's own state (React `useState` hooks). */
  class PaymentViewState {
    var activeTab: Tab
    var showWithdrawModal: bool
    var showPaymentModal: bool
    var selectedMethod: PayMethod
    var isProcessing: bool

    constructor ()
      ensures activeTab == Income && !showWithdrawModal && !showPaymentModal
      ensures selectedMethod == Fpx && !isProcessing
    {
      activeTab := Income;
      showWithdrawModal := false;
      showPaymentModal := false;
      selectedMethod := Fpx;
      isProcessing := false;
    }

    /** Role dispatch: USTAZ gets the wallet, ADMIN the cash-flow tabs, any
        other role the parent's fee page; each modal exists only in its
        own branch. */
    function Render(store: Store, user: User): (r: Screen)
      reads this
      ensures r.TeacherBranch? <==> user.role == Ustaz
      ensures r.AdminBranch? <==> user.role == Admin
      ensures r.ParentBranch? <==> user.role == Parent
      ensures r.TeacherBranch? ==> r.teacher == TeacherView(store, user) && r.withdrawModalOpen == showWithdrawModal
      ensures r.AdminBranch? ==> r.admin == AdminView(store, activeTab)
      ensures r.ParentBranch? ==> r.parent == ParentView(store, user)
      ensures r.ParentBranch? ==> (r.paymentModal.Some? <==> showPaymentModal)
      ensures r.ParentBranch? && r.paymentModal.Some? ==>
        r.paymentModal.value == PaymentModal(MethodTiles(selectedMethod), isProcessing)
    {
      match user.role
      case Ustaz => TeacherBranch(TeacherView(store, user), showWithdrawModal)
      case Admin => AdminBranch(AdminView(store, activeTab))
      case Parent =>
        var modal := if showPaymentModal then Some(PaymentModal(MethodTiles(selectedMethod), isProcessing)) else None;
        ParentBranch(ParentView(store, user), modal)
    }

    method SelectTab(tab: Tab)
      modifies this
      ensures activeTab == tab
      ensures showWithdrawModal == old(showWithdrawModal) && showPaymentModal == old(showPaymentModal)
      ensures selectedMethod == old(selectedMethod) && isProcessing == old(isProcessing)
    {
      activeTab := tab;
    }

    /** The teacher's "request withdrawal" button; it is disabled, so the
        click does nothing, when the teacher's balance is not positive. */
    method RequestWithdrawal(store: Store, user: User)
      modifies this
      ensures showWithdrawModal == (old(showWithdrawModal) || !TeacherView(store, user).requestDisabled)
      ensures showWithdrawModal == (old(showWithdrawModal) || TeacherLedger(store.sessions, store.withdrawals, user.id).currentBalance > 0)
      ensures activeTab == old(activeTab) && showPaymentModal == old(showPaymentModal)
      ensures selectedMethod == old(selectedMethod) && isProcessing == old(isProcessing)
    {
      var balance := TeacherLedger(store.sessions, store.withdrawals, user.id).currentBalance;
      if !RequestDisabled(balance) {
        showWithdrawModal := true;
      }
    }

    /** The modal's cancel button. */
    method CancelWithdrawal()
      modifies this
      ensures !showWithdrawModal
      ensures activeTab == old(activeTab) && showPaymentModal == old(showPaymentModal)
      ensures selectedMethod == old(selectedMethod) && isProcessing == old(isProcessing)
    {
      showWithdrawModal := false;
    }

    /** `handleWithdraw`: closes the modal. It creates no withdrawal record:
        the store is not touched. */
    method SubmitWithdrawal()
      modifies this
      ensures !showWithdrawModal
      ensures activeTab == old(activeTab) && showPaymentModal == old(showPaymentModal)
      ensures selectedMethod == old(selectedMethod) && isProcessing == old(isProcessing)
    {
      showWithdrawModal := false;
    }

    /** "Pay now": opens the modal; the last selected method is kept. */
    method OpenPaymentModal()
      modifies this
      ensures showPaymentModal
      ensures activeTab == old(activeTab) && showWithdrawModal == old(showWithdrawModal)
      ensures selectedMethod == old(selectedMethod) && isProcessing == old(isProcessing)
    {
      showPaymentModal := true;
    }

    /** The modal's close button; a payment already submitted keeps
        processing. */
    method ClosePaymentModal()
      modifies this
      ensures !showPaymentModal
      ensures activeTab == old(activeTab) && showWithdrawModal == old(showWithdrawModal)
      ensures selectedMethod == old(selectedMethod) && isProcessing == old(isProcessing)
    {
      showPaymentModal := false;
    }

    /** Clicking a method tile replaces the selection. */
    method SelectMethod(m: PayMethod)
      modifies this
      ensures selectedMethod == m
      ensures activeTab == old(activeTab) && showWithdrawModal == old(showWithdrawModal)
      ensures showPaymentModal == old(showPaymentModal) && isProcessing == old(isProcessing)
    {
      selectedMethod := m;
    }

    /** `handlePaymentProcess`: sets the processing flag unconditionally
        (there is no guard against a second submit) and starts the simulated
        request; `announced` is the method its completion message names. */
    method SubmitPayment() returns (announced: PayMethod)
      modifies this
      ensures isProcessing
      ensures announced == selectedMethod
      ensures activeTab == old(activeTab) && showWithdrawModal == old(showWithdrawModal)
      ensures showPaymentModal == old(showPaymentModal) && selectedMethod == old(selectedMethod)
    {
      isProcessing := true;
      announced := selectedMethod;
    }

    /** The simulated request's completion: clears the flag and closes the
        modal. */
    method CompletePayment()
      modifies this
      ensures !isProcessing && !showPaymentModal
      ensures activeTab == old(activeTab) && showWithdrawModal == old(showWithdrawModal)
      ensures selectedMethod == old(selectedMethod)
    {
      isProcessing := false;
      showPaymentModal := false;
    }
  }

  /** A parent's payment round: the modal opens with FPX selected, the
      parent picks a method, submits, and the completion closes the modal;
      exactly one tile is highlighted throughout. */
  method PaymentRound(m: PayMethod) returns (s: PaymentViewState, announced: PayMethod)
    ensures fresh(s)
    ensures announced == m
    ensures !s.showPaymentModal && !s.isProcessing && s.selectedMethod == m
  {
    s := new PaymentViewState();
    s.OpenPaymentModal();
    assert MethodTiles(s.selectedMethod)[TileIndex(Fpx)];
    s.SelectMethod(m);
    announced := s.SubmitPayment();
    assert s.isProcessing && s.showPaymentModal;
    s.CompletePayment();
  }
}
