/**
 * The persisted dataset of the samity (cooperative savings society) site:
 * the settings record plus six collections. Every entity is a plain value;
 * the interfaces' optional fields become `Option`s.
 */
module Types {

  datatype Option<+T> = None | Some(value: T) {
    function GetOr(default: T): T {
      match this
      case Some(v) => v
      case None => default
    }
  }

  /** Status of an activity: exactly one of three. */
  datatype ActivityStatus = Ongoing | Completed | Planned

  /** Kind of a gallery item. */
  datatype MediaType = Image | Video

  /** The colour rating an administrator gives a member. */
  datatype Performance = Red | Yellow | Green

  datatype TransactionType = Savings | Withdraw | Penalty

  datatype TransactionStatus = Paid | Pending

  datatype Notice = Notice(
    id: string,
    title: string,
    content: string,
    date: string,
    downloadUrl: Option<string>)

  datatype Activity = Activity(
    id: string,
    title: string,
    status: ActivityStatus,
    description: string)

  datatype GalleryItem = GalleryItem(
    id: string,
    title: string,
    description: Option<string>,
    imageUrl: string,
    mediaType: MediaType)

  datatype Member = Member(
    id: string,
    name: string,
    mobile: string,
    password: Option<string>,
    joinDate: string,
    totalSavings: int,
    imageUrl: Option<string>,
    performance: Performance)

  /** Amounts are whole taka; the source's floating-point numbers are not modelled. */
  datatype Transaction = Transaction(
    id: string,
    memberId: string,
    amount: int,
    date: string,
    txType: TransactionType,
    status: TransactionStatus)

  /** A message sent from the contact page; `reply` is absent until the administrator answers. */
  datatype Message = Message(
    id: string,
    memberId: Option<string>,
    senderName: string,
    mobile: string,
    text: string,
    reply: Option<string>,
    date: string,
    isRead: bool)

  datatype SamitySettings = SamitySettings(
    name: string,
    logo: string,
    slogan: string,
    intro: string,
    aboutTitle: string,
    aboutContent: string,
    membershipRules: string,
    monthlySavingsAmount: int,
    contactAddress: string,
    contactMobile: string,
    contactEmail: string,
    whatsappLink: string,
    facebookLink: string,
    googleMapEmbed: string,
    adminPassword: Option<string>)

  /** The whole dataset: settings plus exactly six collections. */
  datatype AppState = AppState(
    settings: SamitySettings,
    notices: seq<Notice>,
    activities: seq<Activity>,
    gallery: seq<GalleryItem>,
    members: seq<Member>,
    transactions: seq<Transaction>,
    messages: seq<Message>)

  /**
   * JavaScript's `x || d` on an optional string: the default is used when the
   * value is absent or the empty string.
   */
  function OrDefault(x: Option<string>, d: string): (r: string)
    ensures r == d <==> x == None || x == Some("") || x == Some(d)
    ensures r != d ==> x == Some(r)
  {
    if x == None || x == Some("") then d else x.value
  }

  /** True when a form field would pass a JavaScript truthiness test. */
  predicate Filled(x: Option<string>)
  {
    x.Some? && x.value != ""
  }

  /** A message is unanswered while its reply is absent or empty (`!m.reply`). */
  predicate IsPending(m: Message)
  {
    !Filled(m.reply)
  }
}
