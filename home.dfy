/**
 * The figures on the home page: the society's savings total, the member
 * count, the headline notice and the teaser of the about text.
 */
module Home {
  import opened Types
  import opened Seqs
  import opened Ledger
  import Constants
  import Accounts
  import Dashboard

  /**
   * The society total: all transactions filtered to paid deposits and
   * reduced to the sum of their amounts. It equals the one-pass reference
   * `PaidSavingsSum`.
   */
  function SocietySavings(ts: seq<Transaction>): (r: int)
    ensures r == PaidSavingsSum(ts)
  {
    PaidSumIsPaidSavingsSum(ts);
    Reduce(Filter(ts, IsPaidSavings), 0)
  }

  /** Reference definition: one pass, counting an amount only for a paid deposit. */
  function PaidSavingsSum(ts: seq<Transaction>): int
  {
    if ts == [] then 0
    else (if IsPaidSavings(ts[0]) then ts[0].amount else 0) + PaidSavingsSum(ts[1..])
  }

  /** Filtering to paid deposits and summing equals the one-pass reference. */
  lemma {:induction false} PaidSumIsPaidSavingsSum(ts: seq<Transaction>)
    ensures SumAmounts(Filter(ts, IsPaidSavings)) == PaidSavingsSum(ts)
  {
    if ts != [] {
      PaidSumIsPaidSavingsSum(ts[1..]);
      var rest := Filter(ts[1..], IsPaidSavings);
      if IsPaidSavings(ts[0]) {
        assert Filter(ts, IsPaidSavings) == [ts[0]] + rest;
        assert ([ts[0]] + rest)[1..] == rest;
      } else {
        assert Filter(ts, IsPaidSavings) == rest;
      }
    }
  }

  /** The total of a concatenation is the sum of the totals. */
  lemma SocietySavingsAppend(a: seq<Transaction>, b: seq<Transaction>)
    ensures SocietySavings(a + b) == SocietySavings(a) + SocietySavings(b)
  {
    FilterAppend(a, b, IsPaidSavings);
    SumAppend(Filter(a, IsPaidSavings), Filter(b, IsPaidSavings));
  }

  /**
   * A transaction placed first raises the total by its amount when it is a
   * paid deposit and leaves it unchanged when it is a withdrawal, a penalty
   * or still pending.
   */
  lemma SocietySavingsAfterPrepend(ts: seq<Transaction>, t: Transaction)
    ensures IsPaidSavings(t) ==> SocietySavings([t] + ts) == SocietySavings(ts) + t.amount
    ensures !IsPaidSavings(t) ==> SocietySavings([t] + ts) == SocietySavings(ts)
  {
    SocietySavingsAppend([t], ts);
    assert Filter([t], IsPaidSavings) == if IsPaidSavings(t) then [t] else [];
  }

  /** With the seed data the society total is 1500, the two members' totals together. */
  lemma SeedSocietySavings()
    ensures SocietySavings(Constants.InitialTransactions()) == 1500
    ensures SocietySavings(Constants.InitialTransactions()) ==
      Accounts.TotalUserSavings(Constants.InitialTransactions(), "1001") +
      Accounts.TotalUserSavings(Constants.InitialTransactions(), "1002")
  {
    var ts := Constants.InitialTransactions();
    Accounts.SeedSavings();
    Constants.SeedTransactionsReferenceMembers();
    FilterKeepsAll(ts, IsPaidSavings);
    assert SumAmounts(ts[1..][1..]) == 500;
  }

  /** The member count shown: every member record, duplicates included; zero only for an empty list. */
  function MemberCount(ms: seq<Member>): (n: nat)
    ensures n == |multiset(ms)|
    ensures n == 0 <==> ms == []
  {
    |ms|
  }

  /**
   * Adding a member raises the count by one; deleting an id lowers it when
   * some member has the id and leaves it alone otherwise.
   */
  lemma MemberCountChanges(d: AppState, f: Dashboard.MemberForm, today: string, rnd: nat, id: string)
    requires 1000 <= rnd <= 9999 && Dashboard.MemberFormValid(f)
    ensures MemberCount(Dashboard.MemberSaved(d, f, None, today, rnd).members) == MemberCount(d.members) + 1
    ensures Dashboard.HasId(d, Dashboard.MemberList, id) ==>
      MemberCount(Dashboard.Deleted(d, Dashboard.MemberList, id).members) < MemberCount(d.members)
    ensures !Dashboard.HasId(d, Dashboard.MemberList, id) ==>
      MemberCount(Dashboard.Deleted(d, Dashboard.MemberList, id).members) == MemberCount(d.members)
  {
    Dashboard.DeleteAbsentIsNoOp(d, Dashboard.MemberList, id);
    FilterPartition(d.members, Dashboard.MemberIdIsNot(id), Dashboard.MemberIdIs(id));
    if Dashboard.HasId(d, Dashboard.MemberList, id) {
      var m :| m in d.members && m.id == id;
      assert m in Filter(d.members, Dashboard.MemberIdIs(id)) by {
        assert multiset(Filter(d.members, Dashboard.MemberIdIs(id)))[m] == multiset(d.members)[m];
      }
    }
  }

  /** Placeholder shown when there is no notice ("no new notice"). */
  const NoNoticeHeadline := "কোনো নতুন নোটিশ নেই"

  /** The headline: the first notice's title, or the placeholder when there is none. */
  function Headline(notices: seq<Notice>): (h: string)
    ensures notices != [] ==> h == notices[0].title
    ensures notices == [] ==> h == NoNoticeHeadline
  {
    if |notices| > 0 then notices[0].title else NoNoticeHeadline
  }

  /** A notice just created on the dashboard becomes the headline. */
  lemma NewNoticeIsHeadline(d: AppState, f: Dashboard.NoticeForm, now: nat, today: string)
    requires Dashboard.NoticeFormValid(f)
    ensures Headline(Dashboard.NoticeSaved(d, f, None, now, today).notices) == f.title.value
  {
  }

  /** The teaser: the first 200 characters of the about text, or all of it when shorter. */
  function AboutTeaser(s: string): (r: string)
    ensures r <= s
    ensures |r| == if |s| < 200 then |s| else 200
  {
    if |s| <= 200 then s else s[..200]
  }
}
