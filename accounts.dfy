/**
 * The member's account page: which screen is shown, what a login attempt
 * reports, the member's transaction history and savings total, the inbox,
 * and the self-service password change.
 */
module Accounts {
  import opened Types
  import opened Seqs
  import opened Ledger
  import Session
  import Constants
  import Dashboard

  /*** Screen selection and login feedback ***/

  datatype Screen = AdminLanding | LoginForm | MemberDashboard(member: Member)

  /**
   * The administrator without a member session sees the landing card, anyone
   * else without a member session the login form, and a member (even while
   * the administrator flag is also set) their dashboard.
   */
  function AccountsScreen(isAdmin: bool, currentUser: Option<Member>): (s: Screen)
    ensures s.AdminLanding? <==> isAdmin && currentUser.None?
    ensures s.LoginForm? <==> !isAdmin && currentUser.None?
    ensures s.MemberDashboard? <==> currentUser.Some?
    ensures s.MemberDashboard? ==> currentUser == Some(s.member)
  {
    if isAdmin && currentUser.None? then AdminLanding
    else if currentUser.None? then LoginForm
    else MemberDashboard(currentUser.value)
  }

  /** The one error text shown for every failed login ("wrong id or password"). */
  const LoginError := "ভুল আইডি অথবা পাসওয়ার্ড। " + "সঠিক তথ্য দিয়ে চেষ্টা করুন।"

  datatype SubmitFeedback = SubmitFeedback(navigateTo: Option<string>, error: string)

  /**
   * What the login form does with the outcome: an administrator login goes
   * to /admin, a member login stays on the page, and a rejection shows the
   * same message whichever of id or password was wrong.
   */
  function LoginSubmitted(o: Session.LoginOutcome): (f: SubmitFeedback)
    ensures f.navigateTo == Some("/admin") <==> o.AdminLogin?
    ensures f.navigateTo.None? <==> !o.AdminLogin?
    ensures f.error == "" <==> !o.Rejected?
    ensures o.Rejected? ==> f.error == LoginError
  {
    match o
    case AdminLogin => SubmitFeedback(Some("/admin"), "")
    case MemberLogin(_) => SubmitFeedback(None, "")
    case Rejected => SubmitFeedback(None, LoginError)
  }

  /** Submits the login form: the store decides, the page reports. */
  method HandleLoginSubmit(app: Session.App, id: string, pass: string) returns (f: SubmitFeedback)
    modifies app
    ensures f == LoginSubmitted(Session.Login(old(app.data), id, pass))
    ensures app.data == old(app.data)
    ensures Session.Login(old(app.data), id, pass).AdminLogin? ==>
      app.isAdmin && app.currentUser == old(app.currentUser)
    ensures Session.Login(old(app.data), id, pass).MemberLogin? ==>
      app.currentUser == Some(Session.Login(old(app.data), id, pass).member) && app.isAdmin == old(app.isAdmin)
    ensures Session.Login(old(app.data), id, pass).Rejected? ==>
      app.currentUser == old(app.currentUser) && app.isAdmin == old(app.isAdmin)
  {
    var result := app.HandleLogin(id, pass);
    if result.AdminLogin? {
      f := SubmitFeedback(Some("/admin"), "");
    } else if result.MemberLogin? {
      f := SubmitFeedback(None, "");
    } else {
      f := SubmitFeedback(None, LoginError);
    }
  }

  /*** History, savings total and inbox ***/

  function ByMember(id: string): Transaction -> bool { (t: Transaction) => t.memberId == id }
  function ByMobile(mobile: string): Message -> bool { (m: Message) => m.mobile == mobile }

  /** The member's history: exactly their transactions, in list order, each as often as it occurs. */
  function UserTransactions(ts: seq<Transaction>, id: string): (r: seq<Transaction>)
    ensures forall t :: t in r <==> t in ts && t.memberId == id
    ensures IsSubsequence(r, ts)
    ensures forall t :: t in ts && t.memberId == id ==> multiset(r)[t] == multiset(ts)[t]
  {
    Filter(ts, ByMember(id))
  }

  /**
   * The displayed savings: the member's history filtered to paid deposits
   * and reduced to the sum of their amounts. It equals the one-pass
   * reference `MemberSavings`.
   */
  function TotalUserSavings(ts: seq<Transaction>, id: string): (r: int)
    ensures r == MemberSavings(ts, id)
  {
    PaidMemberSumIsMemberSavings(ts, id);
    Reduce(Filter(UserTransactions(ts, id), IsPaidSavings), 0)
  }

  /** Reference definition: one pass, counting an amount only for a paid deposit of this member. */
  function MemberSavings(ts: seq<Transaction>, id: string): int
  {
    if ts == [] then 0
    else (if ts[0].memberId == id && IsPaidSavings(ts[0]) then ts[0].amount else 0) + MemberSavings(ts[1..], id)
  }

  /** Filtering to the member's paid deposits and summing equals the one-pass reference. */
  lemma {:induction false} PaidMemberSumIsMemberSavings(ts: seq<Transaction>, id: string)
    ensures SumAmounts(Filter(UserTransactions(ts, id), IsPaidSavings)) == MemberSavings(ts, id)
  {
    if ts != [] {
      PaidMemberSumIsMemberSavings(ts[1..], id);
      var rest := Filter(UserTransactions(ts[1..], id), IsPaidSavings);
      if ts[0].memberId == id && IsPaidSavings(ts[0]) {
        assert Filter(UserTransactions(ts, id), IsPaidSavings) == [ts[0]] + rest;
        assert ([ts[0]] + rest)[1..] == rest;
      } else {
        assert Filter(UserTransactions(ts, id), IsPaidSavings) == rest;
      }
    }
  }

  /**
   * A new transaction placed first changes a member's total only when it is
   * that member's paid deposit, and then by its amount.
   */
  lemma SavingsAfterPrepend(ts: seq<Transaction>, t: Transaction, id: string)
    ensures t.memberId == id && IsPaidSavings(t) ==> TotalUserSavings([t] + ts, id) == TotalUserSavings(ts, id) + t.amount
    ensures !(t.memberId == id && IsPaidSavings(t)) ==> TotalUserSavings([t] + ts, id) == TotalUserSavings(ts, id)
  {
    assert ([t] + ts)[1..] == ts;
  }

  /**
   * Recording a savings payment for a member through the dashboard raises
   * that member's total by the amount and leaves every other member's total
   * as it was.
   */
  lemma SavingsAfterRecordedPayment(d: AppState, f: Dashboard.TransactionForm, now: nat, today: string, id: string)
    requires Dashboard.TransactionFormValid(f) && (f.txType.None? || f.txType == Some(Savings))
    ensures f.memberId.value == id ==>
      TotalUserSavings(Dashboard.TransactionSaved(d, f, now, today).transactions, id) ==
      TotalUserSavings(d.transactions, id) + f.amount.value
    ensures f.memberId.value != id ==>
      TotalUserSavings(Dashboard.TransactionSaved(d, f, now, today).transactions, id) == TotalUserSavings(d.transactions, id)
  {
    var t := Dashboard.NewTransaction(f, now, today);
    assert Dashboard.TransactionSaved(d, f, now, today).transactions == [t] + d.transactions;
    SavingsAfterPrepend(d.transactions, t, id);
  }

  /** With the seed data, member 1001 has saved 1000 and member 1002 has saved 500. */
  lemma SeedSavings()
    ensures TotalUserSavings(Constants.InitialTransactions(), "1001") == 1000
    ensures TotalUserSavings(Constants.InitialTransactions(), "1002") == 500
  {
    SeedMemberSavings();
  }

  lemma SeedMemberSavings()
    ensures MemberSavings(Constants.InitialTransactions(), "1001") == 1000
    ensures MemberSavings(Constants.InitialTransactions(), "1002") == 500
  {
    var ts := Constants.InitialTransactions();
    var last := ts[1..][1..];
    assert last[1..] == [];
    assert MemberSavings(last, "1001") == 0 && MemberSavings(last, "1002") == 500;
  }

  /** The inbox: exactly the messages sent from the member's mobile number, in list order. */
  function UserMessages(ms: seq<Message>, mobile: string): (r: seq<Message>)
    ensures forall m :: m in r <==> m in ms && m.mobile == mobile
    ensures IsSubsequence(r, ms)
    ensures forall m :: m in ms && m.mobile == mobile ==> multiset(r)[m] == multiset(ms)[m]
  {
    Filter(ms, ByMobile(mobile))
  }

  datatype InboxLine = Answered(reply: string) | Awaiting

  /** An inbox message shows the administrator's reply, or "waiting" exactly when it has none. */
  function InboxLineOf(m: Message): (l: InboxLine)
    ensures l.Awaiting? <==> IsPending(m)
    ensures l.Answered? ==> m.reply == Some(l.reply) && l.reply != ""
  {
    if Filled(m.reply) then Answered(m.reply.value) else Awaiting
  }

  /*** Password change ***/

  function WithPassword(pw: string): Member -> Member { (m: Member) => m.(password := Some(pw)) }

  /**
   * `handlePasswordChange`: without a member session or with an empty new
   * password nothing changes; otherwise every member with the session's id
   * gets the new password (the old one is not asked for) and nothing else
   * changes.
   */
  function PasswordChanged(d: AppState, user: Option<Member>, pw: string): (r: AppState)
    ensures user.None? || pw == "" ==> r == d
    ensures r == d.(members := r.members)
    ensures |r.members| == |d.members|
    ensures user.Some? && pw != "" ==> forall i :: 0 <= i < |d.members| && d.members[i].id == user.value.id ==>
      r.members[i] == d.members[i].(password := Some(pw))
    ensures forall i :: 0 <= i < |d.members| && (user.None? || d.members[i].id != user.value.id) ==>
      r.members[i] == d.members[i]
  {
    if user.None? || pw == "" then d
    else d.(members := MapWhere(d.members, Dashboard.MemberIdIs(user.value.id), WithPassword(pw)))
  }

  method HandlePasswordChange(app: Session.App, pw: string)
    modifies app
    ensures app.data == PasswordChanged(old(app.data), old(app.currentUser), pw)
    ensures app.currentUser == old(app.currentUser) && app.isAdmin == old(app.isAdmin)
  {
    if app.currentUser.None? || pw == "" {
      return;
    }
    var newMembers := MapWhere(app.data.members, Dashboard.MemberIdIs(app.currentUser.value.id), WithPassword(pw));
    app.UpdateData(app.data.(members := newMembers));
  }

  /**
   * After a password change the member logs in with the new password: the
   * login finds a member with the session's id, now holding that password.
   */
  lemma NewPasswordLogsIn(d: AppState, user: Member, pw: string)
    requires pw != ""
    requires exists m :: m in d.members && m.id == user.id
    requires !Session.IsAdminCredential(d.settings, user.id, pw)
    ensures Session.Login(PasswordChanged(d, Some(user), pw), user.id, pw).MemberLogin?
    ensures Session.Login(PasswordChanged(d, Some(user), pw), user.id, pw).member.id == user.id
    ensures Session.Login(PasswordChanged(d, Some(user), pw), user.id, pw).member.password == Some(pw)
  {
    var r := PasswordChanged(d, Some(user), pw);
    var m :| m in d.members && m.id == user.id;
    var i :| 0 <= i < |d.members| && d.members[i] == m;
    assert Session.MemberAccepts(r.members[i], user.id, pw);
    var o := Session.Login(r, user.id, pw);
    var j :| 0 <= j < |r.members| && r.members[j] == o.member;
    assert d.members[j].id == user.id;
  }

  /**
   * The mobile number keeps working as a second secret after any password
   * change: a member who could log in with their mobile still can.
   */
  lemma MobileSurvivesPasswordChange(d: AppState, user: Option<Member>, pw: string, id: string, mobile: string)
    requires exists m :: m in d.members && m.id == id && m.mobile == mobile
    requires !Session.IsAdminCredential(d.settings, id, mobile)
    ensures Session.Login(PasswordChanged(d, user, pw), id, mobile).MemberLogin?
  {
    var r := PasswordChanged(d, user, pw);
    var m :| m in d.members && m.id == id && m.mobile == mobile;
    var i :| 0 <= i < |d.members| && d.members[i] == m;
    assert Session.MemberAccepts(r.members[i], id, mobile);
  }
}
