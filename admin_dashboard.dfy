/**
 * The administrator console: one save handler per collection (validate the
 * form, fill defaults, then either overlay the form onto the record being
 * edited or insert a new record), reply set and clear on messages, delete by
 * id on every collection, and the single-field settings update. Every handler
 * ends by replacing the whole dataset through the store.
 *
 * Each handler has a pure counterpart (`MemberSaved`, `NoticeSaved`, ...)
 * that gives the dataset it produces; the handler method builds the new
 * collection step by step and is proved to hand exactly that dataset to
 * `UpdateData`. The clock (`now`, `today`) and the random member id (`rnd`)
 * are parameters.
 */
module Dashboard {
  import opened Types
  import opened Seqs
  import Text
  import Session
  import Constants

  /*** Forms: every field optional, as `Partial<T>` ***/

  datatype MemberForm = MemberForm(
    id: Option<string>,
    name: Option<string>,
    mobile: Option<string>,
    password: Option<string>,
    joinDate: Option<string>,
    totalSavings: Option<int>,
    imageUrl: Option<string>,
    performance: Option<Performance>)

  datatype NoticeForm = NoticeForm(
    id: Option<string>,
    title: Option<string>,
    content: Option<string>,
    date: Option<string>,
    downloadUrl: Option<string>)

  datatype ActivityForm = ActivityForm(
    id: Option<string>,
    title: Option<string>,
    status: Option<ActivityStatus>,
    description: Option<string>)

  datatype GalleryForm = GalleryForm(
    id: Option<string>,
    title: Option<string>,
    description: Option<string>,
    imageUrl: Option<string>,
    mediaType: Option<MediaType>)

  datatype TransactionForm = TransactionForm(
    memberId: Option<string>,
    amount: Option<int>,
    date: Option<string>,
    txType: Option<TransactionType>,
    status: Option<TransactionStatus>)

  /*** Shallow merge `{ ...record, ...form }`: a present form field overwrites ***/

  /** Every field present in the form wins; every absent field keeps the member's value. */
  function OverlayMember(m: Member, p: MemberForm): (r: Member)
    ensures p.id.Some? ==> r.id == p.id.value
    ensures p.id.None? ==> r.id == m.id
    ensures p.name.Some? ==> r.name == p.name.value
    ensures p.name.None? ==> r.name == m.name
    ensures p.mobile.Some? ==> r.mobile == p.mobile.value
    ensures p.mobile.None? ==> r.mobile == m.mobile
    ensures p.joinDate.Some? ==> r.joinDate == p.joinDate.value
    ensures p.joinDate.None? ==> r.joinDate == m.joinDate
    ensures p.totalSavings.Some? ==> r.totalSavings == p.totalSavings.value
    ensures p.totalSavings.None? ==> r.totalSavings == m.totalSavings
    ensures p.performance.Some? ==> r.performance == p.performance.value
    ensures p.performance.None? ==> r.performance == m.performance
    ensures p.password.Some? ==> r.password == p.password
    ensures p.password.None? ==> r.password == m.password
    ensures p.imageUrl.Some? ==> r.imageUrl == p.imageUrl
    ensures p.imageUrl.None? ==> r.imageUrl == m.imageUrl
  {
    Member(p.id.GetOr(m.id), p.name.GetOr(m.name), p.mobile.GetOr(m.mobile),
           if p.password.Some? then p.password else m.password,
           p.joinDate.GetOr(m.joinDate), p.totalSavings.GetOr(m.totalSavings),
           if p.imageUrl.Some? then p.imageUrl else m.imageUrl,
           p.performance.GetOr(m.performance))
  }

  function OverlayNotice(n: Notice, p: NoticeForm): (r: Notice)
    ensures p.id.Some? ==> r.id == p.id.value
    ensures p.id.None? ==> r.id == n.id
    ensures p.title.Some? ==> r.title == p.title.value
    ensures p.title.None? ==> r.title == n.title
    ensures p.content.Some? ==> r.content == p.content.value
    ensures p.content.None? ==> r.content == n.content
    ensures p.date.Some? ==> r.date == p.date.value
    ensures p.date.None? ==> r.date == n.date
    ensures p.downloadUrl.Some? ==> r.downloadUrl == p.downloadUrl
    ensures p.downloadUrl.None? ==> r.downloadUrl == n.downloadUrl
  {
    Notice(p.id.GetOr(n.id), p.title.GetOr(n.title), p.content.GetOr(n.content),
           p.date.GetOr(n.date), if p.downloadUrl.Some? then p.downloadUrl else n.downloadUrl)
  }

  function OverlayActivity(a: Activity, p: ActivityForm): (r: Activity)
    ensures p.id.Some? ==> r.id == p.id.value
    ensures p.id.None? ==> r.id == a.id
    ensures p.title.Some? ==> r.title == p.title.value
    ensures p.title.None? ==> r.title == a.title
    ensures p.status.Some? ==> r.status == p.status.value
    ensures p.status.None? ==> r.status == a.status
    ensures p.description.Some? ==> r.description == p.description.value
    ensures p.description.None? ==> r.description == a.description
  {
    Activity(p.id.GetOr(a.id), p.title.GetOr(a.title), p.status.GetOr(a.status),
             p.description.GetOr(a.description))
  }

  function OverlayGallery(g: GalleryItem, p: GalleryForm): (r: GalleryItem)
    ensures p.id.Some? ==> r.id == p.id.value
    ensures p.id.None? ==> r.id == g.id
    ensures p.title.Some? ==> r.title == p.title.value
    ensures p.title.None? ==> r.title == g.title
    ensures p.imageUrl.Some? ==> r.imageUrl == p.imageUrl.value
    ensures p.imageUrl.None? ==> r.imageUrl == g.imageUrl
    ensures p.mediaType.Some? ==> r.mediaType == p.mediaType.value
    ensures p.mediaType.None? ==> r.mediaType == g.mediaType
    ensures p.description.Some? ==> r.description == p.description
    ensures p.description.None? ==> r.description == g.description
  {
    GalleryItem(p.id.GetOr(g.id), p.title.GetOr(g.title),
                if p.description.Some? then p.description else g.description,
                p.imageUrl.GetOr(g.imageUrl), p.mediaType.GetOr(g.mediaType))
  }

  /** An empty form leaves a member as it was; merging the same form twice is merging it once. */
  lemma OverlayMemberLaws(m: Member, p: MemberForm)
    ensures OverlayMember(m, MemberForm(None, None, None, None, None, None, None, None)) == m
    ensures OverlayMember(OverlayMember(m, p), p) == OverlayMember(m, p)
  {
  }

  /** The same two laws for notices, activities and gallery items. */
  lemma OverlayLaws(n: Notice, pn: NoticeForm, a: Activity, pa: ActivityForm, g: GalleryItem, pg: GalleryForm)
    ensures OverlayNotice(n, NoticeForm(None, None, None, None, None)) == n
    ensures OverlayNotice(OverlayNotice(n, pn), pn) == OverlayNotice(n, pn)
    ensures OverlayActivity(a, ActivityForm(None, None, None, None)) == a
    ensures OverlayActivity(OverlayActivity(a, pa), pa) == OverlayActivity(a, pa)
    ensures OverlayGallery(g, GalleryForm(None, None, None, None, None)) == g
    ensures OverlayGallery(OverlayGallery(g, pg), pg) == OverlayGallery(g, pg)
  {
  }

  /*** Record selectors used by the `map` and `filter` calls ***/

  function MemberIdIs(id: string): Member -> bool { (m: Member) => m.id == id }
  function NoticeIdIs(id: string): Notice -> bool { (n: Notice) => n.id == id }
  function ActivityIdIs(id: string): Activity -> bool { (a: Activity) => a.id == id }
  function GalleryIdIs(id: string): GalleryItem -> bool { (g: GalleryItem) => g.id == id }
  function MessageIdIs(id: string): Message -> bool { (m: Message) => m.id == id }

  function MemberIdIsNot(id: string): Member -> bool { (m: Member) => m.id != id }
  function NoticeIdIsNot(id: string): Notice -> bool { (n: Notice) => n.id != id }
  function ActivityIdIsNot(id: string): Activity -> bool { (a: Activity) => a.id != id }
  function GalleryIdIsNot(id: string): GalleryItem -> bool { (g: GalleryItem) => g.id != id }
  function TransactionIdIsNot(id: string): Transaction -> bool { (t: Transaction) => t.id != id }
  function MessageIdIsNot(id: string): Message -> bool { (m: Message) => m.id != id }

  function MemberOverlay(p: MemberForm): Member -> Member { (m: Member) => OverlayMember(m, p) }
  function NoticeOverlay(p: NoticeForm): Notice -> Notice { (n: Notice) => OverlayNotice(n, p) }
  function ActivityOverlay(p: ActivityForm): Activity -> Activity { (a: Activity) => OverlayActivity(a, p) }
  function GalleryOverlay(p: GalleryForm): GalleryItem -> GalleryItem { (g: GalleryItem) => OverlayGallery(g, p) }
  function WithReply(text: string): Message -> Message { (m: Message) => m.(reply := Some(text), isRead := true) }
  function WithoutReply(): Message -> Message { (m: Message) => m.(reply := None) }

  /*** Members ***/

  /** Default password of a member created without one. */
  const DefaultMemberPassword := "123456"

  predicate MemberFormValid(f: MemberForm)
  {
    Filled(f.name) && Filled(f.mobile)
  }

  /** The form with `saveMember`'s four defaults filled in; the other fields as given. */
  function WithDefaults(f: MemberForm, today: string): (r: MemberForm)
    ensures r == f.(performance := r.performance, joinDate := r.joinDate,
                    totalSavings := r.totalSavings, password := r.password)
    ensures r.performance.Some? && r.joinDate.Some? && r.totalSavings.Some? && r.password.Some?
    ensures f.performance.Some? ==> r.performance == f.performance
    ensures f.performance.None? ==> r.performance == Some(Yellow)
    ensures Filled(f.joinDate) ==> r.joinDate == f.joinDate
    ensures !Filled(f.joinDate) ==> r.joinDate == Some(today)
    ensures f.totalSavings.Some? ==> r.totalSavings == f.totalSavings
    ensures f.totalSavings.None? ==> r.totalSavings == Some(0)
    ensures Filled(f.password) ==> r.password == f.password
    ensures !Filled(f.password) ==> r.password == Some(DefaultMemberPassword)
  {
    f.(performance := Some(f.performance.GetOr(Yellow)),
       joinDate := Some(OrDefault(f.joinDate, today)),
       totalSavings := Some(f.totalSavings.GetOr(0)),
       password := Some(OrDefault(f.password, DefaultMemberPassword)))
  }

  /** The member a valid form creates; `rnd` stands for the random draw in [1000, 9999]. */
  function NewMember(f: MemberForm, today: string, rnd: nat): (m: Member)
    requires MemberFormValid(f) && 1000 <= rnd <= 9999
    ensures m.name == f.name.value && m.mobile == f.mobile.value && m.imageUrl == f.imageUrl
    ensures Filled(f.id) ==> m.id == f.id.value
    ensures !Filled(f.id) ==> |m.id| == 4 && Text.AllDigits(m.id) && Text.ParseNat(m.id) == rnd
    ensures f.performance.None? ==> m.performance == Yellow
    ensures f.performance.Some? ==> m.performance == f.performance.value
    ensures Filled(f.password) ==> m.password == f.password
    ensures !Filled(f.password) ==> m.password == Some(DefaultMemberPassword)
    ensures Filled(f.joinDate) ==> m.joinDate == f.joinDate.value
    ensures !Filled(f.joinDate) ==> m.joinDate == today
    ensures f.totalSavings.None? ==> m.totalSavings == 0
    ensures f.totalSavings.Some? ==> m.totalSavings == f.totalSavings.value
  {
    var p := WithDefaults(f, today);
    Text.FourDigits(rnd);
    Text.ParseNatToString(rnd);
    Member(OrDefault(f.id, Text.NatToString(rnd)), p.name.value, p.mobile.value, p.password,
           p.joinDate.value, p.totalSavings.value, p.imageUrl, p.performance.value)
  }

  /**
   * `saveMember`: an invalid form changes nothing; a new member is appended
   * after all existing ones; an edit overlays the form (defaults filled) onto
   * every member with the edited id and leaves every other member and the
   * length alone. Only the member list changes.
   */
  function MemberSaved(d: AppState, f: MemberForm, editing: Option<string>, today: string, rnd: nat): (r: AppState)
    requires 1000 <= rnd <= 9999
    ensures !MemberFormValid(f) ==> r == d
    ensures r == d.(members := r.members)
    ensures MemberFormValid(f) && editing.None? ==>
      |r.members| == |d.members| + 1 && r.members[..|d.members|] == d.members &&
      r.members[|d.members|] == NewMember(f, today, rnd)
    ensures MemberFormValid(f) && editing.Some? ==>
      |r.members| == |d.members| &&
      (forall i :: 0 <= i < |d.members| && d.members[i].id == editing.value ==>
        r.members[i] == OverlayMember(d.members[i], WithDefaults(f, today))) &&
      (forall i :: 0 <= i < |d.members| && d.members[i].id != editing.value ==> r.members[i] == d.members[i])
  {
    if !MemberFormValid(f) then d
    else if editing.Some? then
      d.(members := MapWhere(d.members, MemberIdIs(editing.value), MemberOverlay(WithDefaults(f, today))))
    else
      var r := d.(members := d.members + [NewMember(f, today, rnd)]);
      assert r.members[..|d.members|] == d.members;
      r
  }

  /**
   * Member ids are not checked for uniqueness: a new member whose form id is
   * already taken is appended anyway, and the list then holds that id twice.
   */
  lemma DuplicateMemberIdAccepted(d: AppState, f: MemberForm, today: string, rnd: nat)
    requires 1000 <= rnd <= 9999 && MemberFormValid(f) && Filled(f.id)
    requires exists m :: m in d.members && m.id == f.id.value
    ensures !DistinctKeys(MemberSaved(d, f, None, today, rnd).members, (m: Member) => m.id)
  {
    var m :| m in d.members && m.id == f.id.value;
    var i :| 0 <= i < |d.members| && d.members[i] == m;
    var r := MemberSaved(d, f, None, today, rnd).members;
    assert r[i] == r[..|d.members|][i];
    assert r[i].id == r[|d.members|].id;
  }

  /**
   * The defaults are applied to edits too: editing a member through a form
   * whose password field is absent or empty sets that member's password to
   * the default one.
   */
  lemma EditWithoutPasswordResetsIt(d: AppState, f: MemberForm, id: string, today: string, rnd: nat, i: nat)
    requires 1000 <= rnd <= 9999 && MemberFormValid(f) && !Filled(f.password)
    requires i < |d.members| && d.members[i].id == id
    ensures MemberSaved(d, f, Some(id), today, rnd).members[i].password == Some(DefaultMemberPassword)
  {
  }

  /*** Notices ***/

  predicate NoticeFormValid(f: NoticeForm)
  {
    Filled(f.title) && Filled(f.content)
  }

  /** The notice a valid form creates: timestamp id, the form's title and content, date defaulting to today, no attachment. */
  function NewNotice(f: NoticeForm, now: nat, today: string): (n: Notice)
    requires NoticeFormValid(f)
    ensures n.id == Text.NatToString(now)
    ensures n.title == f.title.value && n.content == f.content.value
    ensures Filled(f.date) ==> n.date == f.date.value
    ensures !Filled(f.date) ==> n.date == today
    ensures n.downloadUrl.None?
  {
    Notice(Text.NatToString(now), f.title.value, f.content.value, OrDefault(f.date, today), None)
  }

  /**
   * Notices created at different milliseconds get different ids, since the
   * decimal rendering of the timestamp is one-to-one.
   */
  lemma TimestampIdsDiffer(f: NoticeForm, g: NoticeForm, now1: nat, now2: nat, today: string)
    requires NoticeFormValid(f) && NoticeFormValid(g) && now1 != now2
    ensures NewNotice(f, now1, today).id != NewNotice(g, now2, today).id
  {
    Text.NatToStringInjective(now1, now2);
  }

  /**
   * `saveNotice`: an invalid form changes nothing; a new notice goes first,
   * ahead of the old notices in their order; an edit overlays the form onto
   * the notices with the edited id only. Only the notice list changes.
   */
  function NoticeSaved(d: AppState, f: NoticeForm, editing: Option<string>, now: nat, today: string): (r: AppState)
    ensures !NoticeFormValid(f) ==> r == d
    ensures r == d.(notices := r.notices)
    ensures NoticeFormValid(f) && editing.None? ==>
      |r.notices| == |d.notices| + 1 && r.notices[0] == NewNotice(f, now, today) && r.notices[1..] == d.notices
    ensures NoticeFormValid(f) && editing.Some? ==>
      |r.notices| == |d.notices| &&
      (forall i :: 0 <= i < |d.notices| && d.notices[i].id == editing.value ==>
        r.notices[i] == OverlayNotice(d.notices[i], f)) &&
      (forall i :: 0 <= i < |d.notices| && d.notices[i].id != editing.value ==> r.notices[i] == d.notices[i])
  {
    if !NoticeFormValid(f) then d
    else if editing.Some? then
      d.(notices := MapWhere(d.notices, NoticeIdIs(editing.value), NoticeOverlay(f)))
    else
      d.(notices := [NewNotice(f, now, today)] + d.notices)
  }

  /*** Activities ***/

  /** The activity a titled form creates: status planned and description empty unless given. */
  function NewActivity(f: ActivityForm, now: nat): (a: Activity)
    requires Filled(f.title)
    ensures a.id == Text.NatToString(now) && a.title == f.title.value
    ensures f.status.None? ==> a.status == Planned
    ensures f.status.Some? ==> a.status == f.status.value
    ensures Filled(f.description) ==> a.description == f.description.value
    ensures !Filled(f.description) ==> a.description == ""
  {
    Activity(Text.NatToString(now), f.title.value, f.status.GetOr(Planned), OrDefault(f.description, ""))
  }

  /** `saveActivity`: needs a title; a new activity goes first; an edit overlays the matching ids only. */
  function ActivitySaved(d: AppState, f: ActivityForm, editing: Option<string>, now: nat): (r: AppState)
    ensures !Filled(f.title) ==> r == d
    ensures r == d.(activities := r.activities)
    ensures Filled(f.title) && editing.None? ==>
      |r.activities| == |d.activities| + 1 && r.activities[0] == NewActivity(f, now) &&
      r.activities[1..] == d.activities
    ensures Filled(f.title) && editing.Some? ==>
      |r.activities| == |d.activities| &&
      (forall i :: 0 <= i < |d.activities| && d.activities[i].id == editing.value ==>
        r.activities[i] == OverlayActivity(d.activities[i], f)) &&
      (forall i :: 0 <= i < |d.activities| && d.activities[i].id != editing.value ==>
        r.activities[i] == d.activities[i])
  {
    if !Filled(f.title) then d
    else if editing.Some? then
      d.(activities := MapWhere(d.activities, ActivityIdIs(editing.value), ActivityOverlay(f)))
    else
      d.(activities := [NewActivity(f, now)] + d.activities)
  }

  /*** Gallery ***/

  /** Title of a picture saved without one ("memory"). */
  const DefaultGalleryTitle := "স্মৃতি"

  /** The gallery item a form with an image URL creates: always an image, default title and empty description. */
  function NewGalleryItem(f: GalleryForm, now: nat): (g: GalleryItem)
    requires Filled(f.imageUrl)
    ensures g.id == Text.NatToString(now) && g.imageUrl == f.imageUrl.value && g.mediaType == Image
    ensures Filled(f.title) ==> g.title == f.title.value
    ensures !Filled(f.title) ==> g.title == DefaultGalleryTitle
    ensures Filled(f.description) ==> g.description == f.description
    ensures !Filled(f.description) ==> g.description == Some("")
  {
    GalleryItem(Text.NatToString(now), OrDefault(f.title, DefaultGalleryTitle),
                Some(OrDefault(f.description, "")), f.imageUrl.value, Image)
  }

  /** `saveGallery`: needs an image URL; a new item goes first; an edit overlays the matching ids only. */
  function GallerySaved(d: AppState, f: GalleryForm, editing: Option<string>, now: nat): (r: AppState)
    ensures !Filled(f.imageUrl) ==> r == d
    ensures r == d.(gallery := r.gallery)
    ensures Filled(f.imageUrl) && editing.None? ==>
      |r.gallery| == |d.gallery| + 1 && r.gallery[0] == NewGalleryItem(f, now) && r.gallery[1..] == d.gallery
    ensures Filled(f.imageUrl) && editing.Some? ==>
      |r.gallery| == |d.gallery| &&
      (forall i :: 0 <= i < |d.gallery| && d.gallery[i].id == editing.value ==>
        r.gallery[i] == OverlayGallery(d.gallery[i], f)) &&
      (forall i :: 0 <= i < |d.gallery| && d.gallery[i].id != editing.value ==> r.gallery[i] == d.gallery[i])
  {
    if !Filled(f.imageUrl) then d
    else if editing.Some? then
      d.(gallery := MapWhere(d.gallery, GalleryIdIs(editing.value), GalleryOverlay(f)))
    else
      d.(gallery := [NewGalleryItem(f, now)] + d.gallery)
  }

  /*** Transactions ***/

  /** A transaction form is accepted with a member id and a non-zero amount; negative amounts pass. */
  predicate TransactionFormValid(f: TransactionForm)
  {
    Filled(f.memberId) && f.amount.Some? && f.amount.value != 0
  }

  /** The transaction a valid form creates: always paid, savings unless another type is chosen. */
  function NewTransaction(f: TransactionForm, now: nat, today: string): (t: Transaction)
    requires TransactionFormValid(f)
    ensures t.id == Text.NatToString(now)
    ensures t.memberId == f.memberId.value && t.amount == f.amount.value && t.amount != 0
    ensures t.status == Paid
    ensures f.txType.None? ==> t.txType == Savings
    ensures f.txType.Some? ==> t.txType == f.txType.value
    ensures Filled(f.date) ==> t.date == f.date.value
    ensures !Filled(f.date) ==> t.date == today
  {
    Transaction(Text.NatToString(now), f.memberId.value, f.amount.value, OrDefault(f.date, today),
                f.txType.GetOr(Savings), Paid)
  }

  /** `saveTransaction`: an invalid form changes nothing; otherwise the new transaction goes first. */
  function TransactionSaved(d: AppState, f: TransactionForm, now: nat, today: string): (r: AppState)
    ensures !TransactionFormValid(f) ==> r == d
    ensures r == d.(transactions := r.transactions)
    ensures TransactionFormValid(f) ==>
      |r.transactions| == |d.transactions| + 1 &&
      r.transactions[0] == NewTransaction(f, now, today) && r.transactions[1..] == d.transactions
  {
    if !TransactionFormValid(f) then d
    else d.(transactions := [NewTransaction(f, now, today)] + d.transactions)
  }

  /*** Messages ***/

  /**
   * `saveReply`: empty text changes nothing; otherwise every message with
   * the id gets the reply and is marked read, and every other message is
   * left alone.
   */
  function ReplySaved(d: AppState, msgId: string, text: string): (r: AppState)
    ensures text == "" ==> r == d
    ensures r == d.(messages := r.messages)
    ensures |r.messages| == |d.messages|
    ensures text != "" ==> forall i :: 0 <= i < |d.messages| && d.messages[i].id == msgId ==>
      r.messages[i] == d.messages[i].(reply := Some(text), isRead := true) && !IsPending(r.messages[i])
    ensures forall i :: 0 <= i < |d.messages| && d.messages[i].id != msgId ==> r.messages[i] == d.messages[i]
  {
    if text == "" then d
    else d.(messages := MapWhere(d.messages, MessageIdIs(msgId), WithReply(text)))
  }

  /**
   * The "edit reply" button: removes the reply of the messages with the id,
   * which are pending again, and keeps their read flag as it was.
   */
  function ReplyCleared(d: AppState, msgId: string): (r: AppState)
    ensures r == d.(messages := r.messages)
    ensures |r.messages| == |d.messages|
    ensures forall i :: 0 <= i < |d.messages| && d.messages[i].id == msgId ==>
      r.messages[i] == d.messages[i].(reply := None) && IsPending(r.messages[i]) &&
      r.messages[i].isRead == d.messages[i].isRead
    ensures forall i :: 0 <= i < |d.messages| && d.messages[i].id != msgId ==> r.messages[i] == d.messages[i]
  {
    d.(messages := MapWhere(d.messages, MessageIdIs(msgId), WithoutReply()))
  }

  /** The "New" badge on the inbox tab: shown while some message is unanswered. */
  function NewBadge(ms: seq<Message>): (shown: bool)
    ensures shown <==> exists m :: m in ms && IsPending(m)
  {
    var pending := Filter(ms, IsPending);
    assert forall m :: m in ms && IsPending(m) ==> multiset(pending)[m] > 0;
    |pending| > 0
  }

  /** The seed dataset has an empty inbox, so the "New" badge starts hidden. */
  lemma SeedShowsNoBadge()
    ensures Constants.InitialData.messages == []
    ensures !NewBadge(Constants.InitialData.messages)
  {
    Constants.InitialDataParts();
  }

  /** Setting a reply, clearing it, and setting the same reply again ends where the first set did. */
  lemma ReplyAgain(d: AppState, msgId: string, text: string)
    requires text != ""
    ensures ReplySaved(ReplyCleared(ReplySaved(d, msgId, text), msgId), msgId, text) == ReplySaved(d, msgId, text)
  {
    var once := ReplySaved(d, msgId, text);
    var again := ReplySaved(ReplyCleared(once, msgId), msgId, text);
    assert forall i :: 0 <= i < |d.messages| ==> again.messages[i] == once.messages[i];
    assert again.messages == once.messages;
  }

  /*** Delete by id ***/

  datatype Collection = MemberList | TransactionList | NoticeList | ActivityList | GalleryList | MessageList

  /** `b` equals `a` except perhaps in collection `c`. */
  predicate SameExcept(a: AppState, b: AppState, c: Collection)
  {
    && a.settings == b.settings
    && (c != MemberList ==> a.members == b.members)
    && (c != TransactionList ==> a.transactions == b.transactions)
    && (c != NoticeList ==> a.notices == b.notices)
    && (c != ActivityList ==> a.activities == b.activities)
    && (c != GalleryList ==> a.gallery == b.gallery)
    && (c != MessageList ==> a.messages == b.messages)
  }

  /** Some record of collection `c` carries the id. */
  predicate HasId(d: AppState, c: Collection, id: string)
  {
    match c
    case MemberList => exists m :: m in d.members && m.id == id
    case TransactionList => exists t :: t in d.transactions && t.id == id
    case NoticeList => exists n :: n in d.notices && n.id == id
    case ActivityList => exists a :: a in d.activities && a.id == id
    case GalleryList => exists g :: g in d.gallery && g.id == id
    case MessageList => exists m :: m in d.messages && m.id == id
  }

  /**
   * The delete buttons: `filter(x => x.id !== id)` on one collection. No
   * record with the id remains, the other records stay in order, and no
   * other collection changes.
   */
  function Deleted(d: AppState, c: Collection, id: string): (r: AppState)
    ensures SameExcept(d, r, c)
    ensures !HasId(r, c, id)
    ensures c == MemberList ==> r.members == Filter(d.members, MemberIdIsNot(id))
    ensures c == TransactionList ==> r.transactions == Filter(d.transactions, TransactionIdIsNot(id))
    ensures c == NoticeList ==> r.notices == Filter(d.notices, NoticeIdIsNot(id))
    ensures c == ActivityList ==> r.activities == Filter(d.activities, ActivityIdIsNot(id))
    ensures c == GalleryList ==> r.gallery == Filter(d.gallery, GalleryIdIsNot(id))
    ensures c == MessageList ==> r.messages == Filter(d.messages, MessageIdIsNot(id))
  {
    match c
    case MemberList => d.(members := Filter(d.members, MemberIdIsNot(id)))
    case TransactionList => d.(transactions := Filter(d.transactions, TransactionIdIsNot(id)))
    case NoticeList => d.(notices := Filter(d.notices, NoticeIdIsNot(id)))
    case ActivityList => d.(activities := Filter(d.activities, ActivityIdIsNot(id)))
    case GalleryList => d.(gallery := Filter(d.gallery, GalleryIdIsNot(id)))
    case MessageList => d.(messages := Filter(d.messages, MessageIdIsNot(id)))
  }

  /** Deleting an id is a no-op exactly when no record of the collection has it. */
  lemma DeleteAbsentIsNoOp(d: AppState, c: Collection, id: string)
    ensures Deleted(d, c, id) == d <==> !HasId(d, c, id)
  {
    if !HasId(d, c, id) {
      match c
      case MemberList => FilterKeepsAll(d.members, MemberIdIsNot(id));
      case TransactionList => FilterKeepsAll(d.transactions, TransactionIdIsNot(id));
      case NoticeList => FilterKeepsAll(d.notices, NoticeIdIsNot(id));
      case ActivityList => FilterKeepsAll(d.activities, ActivityIdIsNot(id));
      case GalleryList => FilterKeepsAll(d.gallery, GalleryIdIsNot(id));
      case MessageList => FilterKeepsAll(d.messages, MessageIdIsNot(id));
    }
  }

  /** Deleting the same id twice is deleting it once. */
  lemma DeleteIdempotent(d: AppState, c: Collection, id: string)
    ensures Deleted(Deleted(d, c, id), c, id) == Deleted(d, c, id)
  {
    DeleteAbsentIsNoOp(Deleted(d, c, id), c, id);
  }

  /*** Settings ***/

  /** The settings fields the handler can set from text; `monthlySavingsAmount` is set as a number. */
  datatype SettingsField =
    | Name | Logo | Slogan | Intro | AboutTitle | AboutContent | MembershipRules
    | ContactAddress | ContactMobile | ContactEmail | WhatsappLink | FacebookLink
    | GoogleMapEmbed | AdminPasswordField

  datatype SettingsEdit = TextEdit(field: SettingsField, value: string) | AmountEdit(amount: int)

  /** The value of a text field (the administrator password may be absent). */
  function FieldValue(s: SamitySettings, f: SettingsField): Option<string>
  {
    match f
    case Name => Some(s.name)
    case Logo => Some(s.logo)
    case Slogan => Some(s.slogan)
    case Intro => Some(s.intro)
    case AboutTitle => Some(s.aboutTitle)
    case AboutContent => Some(s.aboutContent)
    case MembershipRules => Some(s.membershipRules)
    case ContactAddress => Some(s.contactAddress)
    case ContactMobile => Some(s.contactMobile)
    case ContactEmail => Some(s.contactEmail)
    case WhatsappLink => Some(s.whatsappLink)
    case FacebookLink => Some(s.facebookLink)
    case GoogleMapEmbed => Some(s.googleMapEmbed)
    case AdminPasswordField => s.adminPassword
  }

  /** The text fields together with the amount determine the settings record. */
  lemma FieldsDetermineSettings(a: SamitySettings, b: SamitySettings)
    requires a.monthlySavingsAmount == b.monthlySavingsAmount
    requires forall f :: FieldValue(a, f) == FieldValue(b, f)
    ensures a == b
  {
    assert FieldValue(a, Name) == FieldValue(b, Name);
    assert FieldValue(a, Logo) == FieldValue(b, Logo);
    assert FieldValue(a, Slogan) == FieldValue(b, Slogan);
    assert FieldValue(a, Intro) == FieldValue(b, Intro);
    assert FieldValue(a, AboutTitle) == FieldValue(b, AboutTitle);
    assert FieldValue(a, AboutContent) == FieldValue(b, AboutContent);
    assert FieldValue(a, MembershipRules) == FieldValue(b, MembershipRules);
    assert FieldValue(a, ContactAddress) == FieldValue(b, ContactAddress);
    assert FieldValue(a, ContactMobile) == FieldValue(b, ContactMobile);
    assert FieldValue(a, ContactEmail) == FieldValue(b, ContactEmail);
    assert FieldValue(a, WhatsappLink) == FieldValue(b, WhatsappLink);
    assert FieldValue(a, FacebookLink) == FieldValue(b, FacebookLink);
    assert FieldValue(a, GoogleMapEmbed) == FieldValue(b, GoogleMapEmbed);
    assert FieldValue(a, AdminPasswordField) == FieldValue(b, AdminPasswordField);
  }

  /**
   * `handleSettingsChange`: the named field takes the new value and every
   * other field keeps its value; nothing outside the settings changes.
   */
  function SettingsChanged(d: AppState, e: SettingsEdit): (r: AppState)
    ensures r == d.(settings := r.settings)
    ensures e.TextEdit? ==>
      FieldValue(r.settings, e.field) == Some(e.value) &&
      r.settings.monthlySavingsAmount == d.settings.monthlySavingsAmount &&
      forall f :: f != e.field ==> FieldValue(r.settings, f) == FieldValue(d.settings, f)
    ensures e.AmountEdit? ==>
      r.settings.monthlySavingsAmount == e.amount &&
      forall f :: FieldValue(r.settings, f) == FieldValue(d.settings, f)
  {
    var s := d.settings;
    var s' := match e
      case AmountEdit(n) => s.(monthlySavingsAmount := n)
      case TextEdit(f, v) =>
        match f
        case Name => s.(name := v)
        case Logo => s.(logo := v)
        case Slogan => s.(slogan := v)
        case Intro => s.(intro := v)
        case AboutTitle => s.(aboutTitle := v)
        case AboutContent => s.(aboutContent := v)
        case MembershipRules => s.(membershipRules := v)
        case ContactAddress => s.(contactAddress := v)
        case ContactMobile => s.(contactMobile := v)
        case ContactEmail => s.(contactEmail := v)
        case WhatsappLink => s.(whatsappLink := v)
        case FacebookLink => s.(facebookLink := v)
        case GoogleMapEmbed => s.(googleMapEmbed := v)
        case AdminPasswordField => s.(adminPassword := Some(v));
    d.(settings := s')
  }

  /**
   * After the administrator password is changed to a non-empty `pw`, the
   * administrator logs in with `pw` and, unless `pw` is "admin123", no longer
   * with "admin123" (given no member accepts that id and secret).
   */
  lemma AdminPasswordChange(d: AppState, pw: string)
    requires pw != ""
    requires forall m :: m in d.members ==> !Session.MemberAccepts(m, "admin", "admin123")
    ensures Session.Login(SettingsChanged(d, TextEdit(AdminPasswordField, pw)), "admin", pw) == Session.AdminLogin
    ensures pw != "admin123" ==>
      Session.Login(SettingsChanged(d, TextEdit(AdminPasswordField, pw)), "admin", "admin123") == Session.Rejected
  {
    assert Text.ToLowerAscii("admin") == "admin";
  }

  /** Emptying the administrator password field brings back the fallback "admin123". */
  lemma AdminPasswordEmptied(d: AppState)
    ensures Session.Login(SettingsChanged(d, TextEdit(AdminPasswordField, "")), "ADMIN", "admin123") == Session.AdminLogin
  {
    assert Text.ToLowerAscii("ADMIN") == "admin";
  }

  /*** The handlers: each builds the new collection and replaces the dataset ***/

  method SaveMember(app: Session.App, f: MemberForm, editing: Option<string>, today: string, rnd: nat)
    requires 1000 <= rnd <= 9999
    modifies app
    ensures app.data == MemberSaved(old(app.data), f, editing, today, rnd)
    ensures app.currentUser == old(app.currentUser) && app.isAdmin == old(app.isAdmin)
  {
    if !Filled(f.name) || !Filled(f.mobile) {
      return;
    }
    var newMembers := app.data.members;
    var memberData := WithDefaults(f, today);
    if editing.Some? {
      newMembers := MapWhere(newMembers, MemberIdIs(editing.value), MemberOverlay(memberData));
    } else {
      var member := NewMember(f, today, rnd);
      newMembers := newMembers + [member];
    }
    app.UpdateData(app.data.(members := newMembers));
  }

  method SaveNotice(app: Session.App, f: NoticeForm, editing: Option<string>, now: nat, today: string)
    modifies app
    ensures app.data == NoticeSaved(old(app.data), f, editing, now, today)
    ensures app.currentUser == old(app.currentUser) && app.isAdmin == old(app.isAdmin)
  {
    if !Filled(f.title) || !Filled(f.content) {
      return;
    }
    var newNotices := app.data.notices;
    if editing.Some? {
      newNotices := MapWhere(newNotices, NoticeIdIs(editing.value), NoticeOverlay(f));
    } else {
      var notice := NewNotice(f, now, today);
      newNotices := [notice] + newNotices;
    }
    app.UpdateData(app.data.(notices := newNotices));
  }

  method SaveActivity(app: Session.App, f: ActivityForm, editing: Option<string>, now: nat)
    modifies app
    ensures app.data == ActivitySaved(old(app.data), f, editing, now)
    ensures app.currentUser == old(app.currentUser) && app.isAdmin == old(app.isAdmin)
  {
    if !Filled(f.title) {
      return;
    }
    var newActivities := app.data.activities;
    if editing.Some? {
      newActivities := MapWhere(newActivities, ActivityIdIs(editing.value), ActivityOverlay(f));
    } else {
      var act := NewActivity(f, now);
      newActivities := [act] + newActivities;
    }
    app.UpdateData(app.data.(activities := newActivities));
  }

  method SaveGallery(app: Session.App, f: GalleryForm, editing: Option<string>, now: nat)
    modifies app
    ensures app.data == GallerySaved(old(app.data), f, editing, now)
    ensures app.currentUser == old(app.currentUser) && app.isAdmin == old(app.isAdmin)
  {
    if !Filled(f.imageUrl) {
      return;
    }
    var newGallery := app.data.gallery;
    if editing.Some? {
      newGallery := MapWhere(newGallery, GalleryIdIs(editing.value), GalleryOverlay(f));
    } else {
      var item := NewGalleryItem(f, now);
      newGallery := [item] + newGallery;
    }
    app.UpdateData(app.data.(gallery := newGallery));
  }

  method SaveTransaction(app: Session.App, f: TransactionForm, now: nat, today: string)
    modifies app
    ensures app.data == TransactionSaved(old(app.data), f, now, today)
    ensures app.currentUser == old(app.currentUser) && app.isAdmin == old(app.isAdmin)
  {
    if !Filled(f.memberId) || f.amount.None? || f.amount.value == 0 {
      return;
    }
    var tx := NewTransaction(f, now, today);
    app.UpdateData(app.data.(transactions := [tx] + app.data.transactions));
  }

  method SaveReply(app: Session.App, msgId: string, text: string)
    modifies app
    ensures app.data == ReplySaved(old(app.data), msgId, text)
    ensures app.currentUser == old(app.currentUser) && app.isAdmin == old(app.isAdmin)
  {
    if text == "" {
      return;
    }
    var newMessages := MapWhere(app.data.messages, MessageIdIs(msgId), WithReply(text));
    app.UpdateData(app.data.(messages := newMessages));
  }

  method ClearReply(app: Session.App, msgId: string)
    modifies app
    ensures app.data == ReplyCleared(old(app.data), msgId)
    ensures app.currentUser == old(app.currentUser) && app.isAdmin == old(app.isAdmin)
  {
    var updated := MapWhere(app.data.messages, MessageIdIs(msgId), WithoutReply());
    app.UpdateData(app.data.(messages := updated));
  }

  method Delete(app: Session.App, c: Collection, id: string)
    modifies app
    ensures app.data == Deleted(old(app.data), c, id)
    ensures app.currentUser == old(app.currentUser) && app.isAdmin == old(app.isAdmin)
  {
    app.UpdateData(Deleted(app.data, c, id));
  }

  method ChangeSetting(app: Session.App, e: SettingsEdit)
    modifies app
    ensures app.data == SettingsChanged(old(app.data), e)
    ensures app.currentUser == old(app.currentUser) && app.isAdmin == old(app.isAdmin)
  {
    app.UpdateData(SettingsChanged(app.data, e));
  }
}
