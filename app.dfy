/**
 * The application root: the store that owns the dataset and the session
 * cells, the login decision, logout, and the guard on the administrator
 * route. Persistence to the browser's storage is not modelled; what was
 * stored is handed to the constructor instead.
 */
module Session {
  import opened Types
  import Text
  import Constants

  /** Administrator password used when the settings hold none (or an empty one). */
  const FallbackAdminPassword := "admin123"

  /** The password the administrator must type: the configured one, unless it is absent or empty. */
  function AdminPassword(s: SamitySettings): (r: string)
    ensures Filled(s.adminPassword) ==> r == s.adminPassword.value
    ensures !Filled(s.adminPassword) ==> r == FallbackAdminPassword
    ensures r != ""
  {
    OrDefault(s.adminPassword, FallbackAdminPassword)
  }

  /**
   * The login id names the administrator when it lower-cases to "admin",
   * that is, when it is "admin" in any mix of ASCII upper and lower case.
   */
  function IsAdminId(id: string): (b: bool)
    ensures b <==> |id| == 5 && forall i :: 0 <= i < 5 ==> id[i] == "admin"[i] || id[i] == "ADMIN"[i]
  {
    Text.LowerEqualsIff(id, "admin");
    Text.ToLowerAscii(id) == "admin"
  }

  /** The administrator test, which runs before any member lookup. */
  predicate IsAdminCredential(s: SamitySettings, id: string, pass: string)
  {
    IsAdminId(id) && pass == AdminPassword(s)
  }

  /** A member accepts `pass` as the password or the mobile number, plaintext. */
  predicate MemberAccepts(m: Member, id: string, pass: string)
  {
    m.id == id && (m.password == Some(pass) || m.mobile == pass)
  }

  /**
   * `members.find(...)`: the first member, in list order, whose id and secret
   * both match; `None` when no member does.
   */
  function FindMember(ms: seq<Member>, id: string, pass: string): (r: Option<Member>)
    ensures r.None? <==> forall m :: m in ms ==> !MemberAccepts(m, id, pass)
    ensures r.Some? ==>
      exists i :: 0 <= i < |ms| && ms[i] == r.value && MemberAccepts(ms[i], id, pass) &&
        forall j :: 0 <= j < i ==> !MemberAccepts(ms[j], id, pass)
  {
    if ms == [] then None
    else if MemberAccepts(ms[0], id, pass) then Some(ms[0])
    else
      var r := FindMember(ms[1..], id, pass);
      if r.Some? then
        ghost var i :| 1 <= i + 1 <= |ms| && 0 <= i < |ms[1..]| && ms[1..][i] == r.value &&
          MemberAccepts(ms[1..][i], id, pass) && forall j :: 0 <= j < i ==> !MemberAccepts(ms[1..][j], id, pass);
        assert ms[i + 1] == r.value;
        assert forall j :: 1 <= j < i + 1 ==> ms[j] == ms[1..][j - 1];
        r
      else r
  }

  /** What a login attempt decides. */
  datatype LoginOutcome = Rejected | AdminLogin | MemberLogin(member: Member)

  /**
   * The login decision: the administrator credential wins; otherwise the
   * first matching member; otherwise the attempt is rejected.
   */
  function Login(d: AppState, id: string, pass: string): (r: LoginOutcome)
    ensures r.AdminLogin? <==> IsAdminCredential(d.settings, id, pass)
    ensures r.MemberLogin? ==>
      !IsAdminCredential(d.settings, id, pass) && r.member in d.members &&
      MemberAccepts(r.member, id, pass) && Some(r.member) == FindMember(d.members, id, pass)
    ensures r.Rejected? <==>
      !IsAdminCredential(d.settings, id, pass) && forall m :: m in d.members ==> !MemberAccepts(m, id, pass)
  {
    if IsAdminCredential(d.settings, id, pass) then AdminLogin
    else
      match FindMember(d.members, id, pass)
      case Some(m) => MemberLogin(m)
      case None => Rejected
  }

  /** Where the `/admin` route leads. */
  datatype AdminRoute = ShowDashboard | RedirectTo(path: string)

  /** The application root and its three state cells. */
  class App {
    var data: AppState
    var currentUser: Option<Member>
    var isAdmin: bool

    /**
     * Start-up: the stored dataset if there is one, else the seed; the stored
     * member session; the administrator flag exactly when the stored flag is
     * the string "true".
     */
    constructor (storedData: Option<AppState>, storedUser: Option<Member>, storedAdminFlag: Option<string>)
      ensures data == storedData.GetOr(Constants.InitialData)
      ensures currentUser == storedUser
      ensures isAdmin <==> storedAdminFlag == Some("true")
    {
      data := storedData.GetOr(Constants.InitialData);
      currentUser := storedUser;
      isAdmin := storedAdminFlag == Some("true");
    }

    /** Replaces the dataset wholesale; nothing of the old dataset survives. */
    method UpdateData(newData: AppState)
      modifies this
      ensures data == newData
      ensures currentUser == old(currentUser) && isAdmin == old(isAdmin)
    {
      data := newData;
    }

    /**
     * Decides a login against the current dataset. An administrator login
     * raises the flag and leaves the member session alone; a member login
     * sets the session and leaves the flag alone; a rejection changes nothing.
     */
    method HandleLogin(id: string, pass: string) returns (r: LoginOutcome)
      modifies this
      ensures r == Login(old(data), id, pass)
      ensures data == old(data)
      ensures r.AdminLogin? ==> isAdmin && currentUser == old(currentUser)
      ensures r.MemberLogin? ==> currentUser == Some(r.member) && isAdmin == old(isAdmin)
      ensures r.Rejected? ==> currentUser == old(currentUser) && isAdmin == old(isAdmin)
    {
      if IsAdminId(id) && pass == AdminPassword(data.settings) {
        isAdmin := true;
        return AdminLogin;
      }
      var member := FindMember(data.members, id, pass);
      if member.Some? {
        currentUser := member;
        return MemberLogin(member.value);
      }
      return Rejected;
    }

    /** Clears both session cells, whatever they held. */
    method HandleLogout()
      modifies this
      ensures currentUser == None && !isAdmin
      ensures data == old(data)
    {
      currentUser := None;
      isAdmin := false;
    }

    /** The dashboard is rendered only for the administrator; everyone else goes to /accounts. */
    function Route(): (r: AdminRoute)
      reads this
      ensures r.ShowDashboard? <==> isAdmin
      ensures !isAdmin ==> r == RedirectTo("/accounts")
    {
      if isAdmin then ShowDashboard else RedirectTo("/accounts")
    }
  }

  /** With no administrator password configured, or an empty one, "admin123" is accepted. */
  lemma AdminFallback(d: AppState, id: string)
    requires d.settings.adminPassword == None || d.settings.adminPassword == Some("")
    requires IsAdminId(id)
    ensures Login(d, id, "admin123") == AdminLogin
  {
  }

  /** The administrator check precedes the member lookup, even for a member whose id is "admin". */
  lemma AdminPrecedence(d: AppState, m: Member, pass: string)
    requires m in d.members && MemberAccepts(m, "admin", pass)
    requires pass == AdminPassword(d.settings)
    ensures Login(d, "admin", pass) == AdminLogin
  {
    assert Text.ToLowerAscii("admin") == "admin";
  }

  /** The seed member 1001 logs in with the password "111" or with the mobile number; "wrong" is rejected. */
  lemma SeedMemberLogin()
    ensures Login(Constants.InitialData, "1001", "111") == MemberLogin(Constants.InitialMembers()[0])
    ensures Login(Constants.InitialData, "1001", "01711111111") == MemberLogin(Constants.InitialMembers()[0])
    ensures Login(Constants.InitialData, "1001", "wrong") == Rejected
  {
    Constants.InitialDataParts();
    assert !IsAdminId("1001") by {
      assert Text.ToLowerAscii("1001")[0] == '1';
    }
    SeedMemberLookup();
  }

  lemma SeedMemberLookup()
    ensures FindMember(Constants.InitialMembers(), "1001", "111") == Some(Constants.InitialMembers()[0])
    ensures FindMember(Constants.InitialMembers(), "1001", "01711111111") == Some(Constants.InitialMembers()[0])
    ensures FindMember(Constants.InitialMembers(), "1001", "wrong") == None
  {
    var ms := Constants.InitialMembers();
    assert !MemberAccepts(ms[0], "1001", "wrong");
    assert !MemberAccepts(ms[1], "1001", "wrong");
    assert ms[1..][1..] == [];
  }
}
