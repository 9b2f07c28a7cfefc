/**
 * The public contact form: a visitor's message is put at the head of the
 * message list, unread and unanswered. The clock reading becomes the
 * message id; the formatted date is passed in as `stamp`.
 */
module Contact {
  import opened Types
  import Text
  import Session
  import Accounts
  import Dashboard

  /** The three form inputs. */
  datatype ContactForm = ContactForm(name: string, mobile: string, text: string)

  predicate ContactFormValid(f: ContactForm)
  {
    f.name != "" && f.mobile != "" && f.text != ""
  }

  /** The message a submission creates: the form's fields, unread, with no reply and no member link. */
  function NewMessage(f: ContactForm, now: nat, stamp: string): (m: Message)
    ensures m.id == Text.NatToString(now) && m.date == stamp
    ensures m.senderName == f.name && m.mobile == f.mobile && m.text == f.text
    ensures !m.isRead && m.reply.None? && m.memberId.None?
    ensures IsPending(m)
  {
    Message(Text.NatToString(now), None, f.name, f.mobile, f.text, None, stamp, false)
  }

  /**
   * `handleSubmit`: with any field empty nothing changes; otherwise the new
   * message goes first, the old messages follow in their order, and nothing
   * outside the message list changes.
   */
  function MessageSubmitted(d: AppState, f: ContactForm, now: nat, stamp: string): (r: AppState)
    ensures !ContactFormValid(f) ==> r == d
    ensures r == d.(messages := r.messages)
    ensures ContactFormValid(f) ==>
      |r.messages| == |d.messages| + 1 && r.messages[0] == NewMessage(f, now, stamp) && r.messages[1..] == d.messages
  {
    if !ContactFormValid(f) then d
    else d.(messages := [NewMessage(f, now, stamp)] + d.messages)
  }

  method HandleSubmit(app: Session.App, f: ContactForm, now: nat, stamp: string)
    modifies app
    ensures app.data == MessageSubmitted(old(app.data), f, now, stamp)
    ensures app.currentUser == old(app.currentUser) && app.isAdmin == old(app.isAdmin)
  {
    if f.name == "" || f.mobile == "" || f.text == "" {
      return;
    }
    var newMessage := NewMessage(f, now, stamp);
    var newData := app.data.(messages := [newMessage] + app.data.messages);
    app.UpdateData(newData);
  }

  /**
   * A submitted message heads the inbox of the member with that mobile
   * number, shown as waiting, and lights the administrator's "New" badge.
   */
  lemma SubmittedMessageReachesInbox(d: AppState, f: ContactForm, now: nat, stamp: string)
    requires ContactFormValid(f)
    ensures Accounts.UserMessages(MessageSubmitted(d, f, now, stamp).messages, f.mobile) ==
      [NewMessage(f, now, stamp)] + Accounts.UserMessages(d.messages, f.mobile)
    ensures Accounts.InboxLineOf(NewMessage(f, now, stamp)).Awaiting?
    ensures Dashboard.NewBadge(MessageSubmitted(d, f, now, stamp).messages)
  {
    var r := MessageSubmitted(d, f, now, stamp).messages;
    assert r[1..] == d.messages;
    assert r[0] in r;
  }
}
