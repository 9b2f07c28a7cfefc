/**
 * The seed dataset the application starts from when nothing has been stored
 * yet: two notices, two activities, two gallery pictures, two members with
 * three paid savings deposits between them, and no messages.
 * Long texts are written as concatenations of short literal pieces; each
 * denotes the same string as the single literal it was split from.
 */
module Constants {
  import opened Types
  import Seqs

  function InitialSettings(): SamitySettings
  {
    SamitySettings(
      name := "بذر الغد",
      logo := ("https://picsum.p" + "hotos/200/200?ra" + "ndom=logo"),
      slogan := ("Save Together, G" + "row Together"),
      intro := ("এটি একটি অলাভজনক" + " সমবায় সমিতি। আম" + "াদের মূল লক্ষ্য " + "হল ক্ষুদ্র সঞ্চয়"
        + "ের মাধ্যমে সদস্য" + "দের আত্মনির্ভরশী" + "ল করে তোলা এবং এ" + "ই অলাভজনক সমীতিক"
        + "ে লাভজনক সমীতিতে" + " কনভার্ট করা।"),
      aboutTitle := "আমাদের সম্পর্কে",
      aboutContent := ("২০২৬ সালে শুরু আ" + "মাদের যাত্রা। বি" + "শ্বস্ততা ও স্বচ্" + "ছতাই আমাদের শক্ত"
        + "ি। ইনশা আল্লাহ, " + "একদিন আমরা সফলতা" + "র শিখরে পৌঁছাবো।"),
      membershipRules := ("১. যেকোনো প্রাপ্" + "তবয়স্ক বাংলাদেশী" + " নাগরিক সদস্য হত" + "ে পারবেন।\n২. নির"
        + "্ধারিত টাকা সময়ে" + "ল মধ্যে পরিশোধ ক" + "রতে হবে।\n৩. প্রত" + "্যেক মিটিংয়ে উপস"
        + "্থিতি বাধ্যতামূল" + "ক।"),
      monthlySavingsAmount := 1000,
      contactAddress := ("বাড়ি নং ...., ঢা" + "কা-বাংলাদেশ"),
      contactMobile := "01324532410",
      contactEmail := "bajrulgad@gmail.com",
      whatsappLink := ("https://wa.me/88" + "01700000000"),
      facebookLink := ("https://facebook" + ".com/samity"),
      googleMapEmbed := ("https://www.goog" + "le.com/maps/embe" + "d?pb=!1m18!1m12!" + "1m3!1d116833.831"
        + "87883446!2d90.33" + "728813280826!3d2" + "3.78106723972236" + "!2m3!1f0!2f0!3f0"
        + "!3m2!1i1024!2i76" + "8!4f13.1!3m3!1m2" + "!1s0x3755b8b0870" + "26b81%3A0x8fa563"
        + "bbdd5904c2!2sDha" + "ka!5e0!3m2!1sen!" + "2sbd!4v171542123" + "4567!5m2!1sen!2s"
        + "bd"),
      adminPassword := Some("admin123"))
  }

  function InitialNotices(): seq<Notice>
  {
    [
    Notice("1", "বার্ষিক সাধারণ সভা ২০২৪", ("আগামী ২০শে অক্টো" + "বর আমাদের বার্ষি" + "ক সভা অনুষ্ঠিত হ" + "বে।"), "2024-10-01", None),
    Notice("2", "নতুন সঞ্চয় স্কিম চালু", ("সদস্যদের সুবিধার" + " জন্য ১০০০ টাকার" + " মাসিক স্কিম চাল" + "ু হয়েছে।"), "2024-09-15", None)
    ]
  }

  function InitialActivities(): seq<Activity>
  {
    [
    Activity("1", "পোল্ট্রি খামার প্রকল্প", Ongoing, ("সদস্যদের লভ্যাংশ" + " বৃদ্ধির জন্য নি" + "জস্ব পোল্ট্রি খা" + "মার স্থাপনের কাজ"
        + " চলছে।")),
    Activity("2", "বৃক্ষরোপণ কর্মসূচি", Completed, ("গত বর্ষায় ৫০০০ চ" + "ারা বিতরণ করা হয়" + "েছে।"))
    ]
  }

  function InitialGallery(): seq<GalleryItem>
  {
    [
    GalleryItem("1", "মিটিংয়ের ছবি", Some(("২০২৪ সালের সেপ্ট" + "েম্বর মাসের জরুর" + "ি মিটিং।")), ("https://picsum.p" + "hotos/400/300?ra" + "ndom=1"), Image),
    GalleryItem("2", "কার্যক্রমের ছবি", Some(("আমাদের নতুন প্রক" + "ল্প পরিদর্শনে সদ" + "স্যরা।")), ("https://picsum.p" + "hotos/400/300?ra" + "ndom=2"), Image)
    ]
  }

  function InitialMembers(): seq<Member>
  {
    [
    Member("1001", "আব্দুল করিম", "01711111111", Some("111"), "2020-01-01", 50000, Some(("https://i.pravat" + "ar.cc/150?u=1001")), Green),
    Member("1002", "রহিমা বেগম", "01722222222", Some("222"), "2021-05-10", 35000, Some(("https://i.pravat" + "ar.cc/150?u=1002")), Yellow)
    ]
  }

  function InitialTransactions(): seq<Transaction>
  {
    [
    Transaction("t1", "1001", 500, "2024-10-01", Savings, Paid),
    Transaction("t2", "1001", 500, "2024-09-01", Savings, Paid),
    Transaction("t3", "1002", 500, "2024-10-01", Savings, Paid)
    ]
  }

  /** The whole seed dataset. */
  const InitialData: AppState :=
    AppState(
      settings := InitialSettings(),
      notices := InitialNotices(),
      activities := InitialActivities(),
      gallery := InitialGallery(),
      members := InitialMembers(),
      transactions := InitialTransactions(),
      messages := [])

  /** The seed dataset consists of the six seed collections and an empty inbox. */
  lemma InitialDataParts()
    ensures InitialData == AppState(InitialSettings(), InitialNotices(), InitialActivities(),
                                    InitialGallery(), InitialMembers(), InitialTransactions(), [])
  {
  }

  /** The two seed members have the distinct ids "1001" and "1002". */
  lemma SeedMemberIds()
    ensures |InitialMembers()| == 2
    ensures InitialMembers()[0].id == "1001" && InitialMembers()[1].id == "1002"
    ensures Seqs.DistinctKeys(InitialMembers(), (m: Member) => m.id)
  {
  }

  /** Notice, activity and gallery ids are distinct within each seed collection. */
  lemma SeedCollectionIdsDistinct()
    ensures Seqs.DistinctKeys(InitialNotices(), (n: Notice) => n.id)
    ensures Seqs.DistinctKeys(InitialActivities(), (a: Activity) => a.id)
    ensures Seqs.DistinctKeys(InitialGallery(), (g: GalleryItem) => g.id)
  {
  }

  /** Every seed transaction is a paid deposit recorded against a seed member. */
  lemma SeedTransactionsReferenceMembers()
    ensures forall t :: t in InitialTransactions() ==>
      t.txType == Savings && t.status == Paid &&
      exists m :: m in InitialMembers() && m.id == t.memberId
  {
    var ms := InitialMembers();
    assert ms[0] in ms && ms[1] in ms;
  }

  /** The seed administrator password is "admin123". */
  lemma SeedAdminPassword()
    ensures InitialSettings().adminPassword == Some("admin123")
  {
  }
}
