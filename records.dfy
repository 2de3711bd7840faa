/** The records the screens read (users, students, teaching sessions,
    fee payments, teacher withdrawals, the school configuration), and the
    two array operations of the source that the model needs everywhere:
    `filter` and `find`. */
module Records {

  datatype Option<T> = None | Some(value: T)

  /** The three roles a demo identity can have. */
  datatype Role = Admin | Ustaz | Parent

  datatype User = User(id: string, role: Role, name: string, email: string)

  datatype Student = Student(id: string, parentId: string)

  /** A teaching (tasmik) session; `fee` is what the teacher earns for it. */
  datatype Session = Session(id: string, ustazId: string, studentId: string, fee: int)

  datatype WithdrawalStatus = Pending | Completed | Rejected

  /** A teacher's payout request. */
  datatype Withdrawal = Withdrawal(id: string, ustazId: string, amount: int, status: WithdrawalStatus)

  /** Fee-payment status; `PaymentPending` is the source's 'PENDING'. */
  datatype PaymentStatus = Paid | PaymentPending

  /** A parent's fee payment; `payMethod` (the source's `method`) may be absent. */
  datatype Payment = Payment(id: string, studentId: string, amount: int, payMethod: Option<string>, status: PaymentStatus)

  datatype Rates = Rates(perSession: int, perPage: int, packagePrice: int)

  datatype SchoolConfig = SchoolConfig(name: string, rates: Rates)

  /** `xs.filter(p)`: the elements satisfying `p`, in their original order. */
  function Filter<T(!new)>(xs: seq<T>, p: T -> bool): (r: seq<T>)
    ensures |r| <= |xs|
    ensures forall x :: x in r <==> x in xs && p(x)
    ensures forall i :: 0 <= i < |r| ==> p(r[i])
  {
    if xs == [] then []
    else (if p(xs[0]) then [xs[0]] else []) + Filter(xs[1..], p)
  }

  /** Filtering keeps each passing element as often as it occurs, and no
      failing one. */
  lemma {:induction false} FilterMultiplicity<T(!new)>(xs: seq<T>, p: T -> bool)
    ensures forall x :: multiset(Filter(xs, p))[x] == if p(x) then multiset(xs)[x] else 0
  {
    if xs != [] {
      FilterMultiplicity(xs[1..], p);
      assert xs == [xs[0]] + xs[1..];
    }
  }

  /** Filtering a concatenation filters each part. */
  lemma {:induction false} FilterAppend<T(!new)>(a: seq<T>, b: seq<T>, p: T -> bool)
    ensures Filter(a + b, p) == Filter(a, p) + Filter(b, p)
  {
    if a == [] {
      assert a + b == b;
    } else {
      assert (a + b)[0] == a[0];
      assert (a + b)[1..] == a[1..] + b;
      FilterAppend(a[1..], b, p);
    }
  }

  /** `xs.findIndex(p)`, as an option: the position of the FIRST element
      satisfying `p`, or None when there is none. */
  function FindFirst<T>(xs: seq<T>, p: T -> bool): (r: Option<nat>)
    ensures r.None? <==> forall i :: 0 <= i < |xs| ==> !p(xs[i])
    ensures r.Some? ==> r.value < |xs| && p(xs[r.value])
    ensures r.Some? ==> forall j :: 0 <= j < r.value ==> !p(xs[j])
  {
    if xs == [] then None
    else if p(xs[0]) then Some(0)
    else match FindFirst(xs[1..], p)
      case None => None
      case Some(k) => Some(k + 1)
  }

  /** `xs.find(p)`: the first element satisfying `p`, or None. */
  function Find<T(!new)>(xs: seq<T>, p: T -> bool): (r: Option<T>)
    ensures r.None? <==> forall x :: x in xs ==> !p(x)
    ensures r.Some? ==> r.value in xs && p(r.value)
  {
    match FindFirst(xs, p)
    case None => None
    case Some(k) => Some(xs[k])
  }
}
