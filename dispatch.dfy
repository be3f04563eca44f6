/**
 * The `sponsorship` event handler.  It tests the action tag twice, once for
 * `created` and once for `cancelled`, and for a match sends one message
 * spread from the default arguments: a plain-text fallback and two blocks,
 * an emoji header section followed by the matching sponsor section.  Every
 * other action sends nothing.  Sending is replaced by returning the messages
 * the handler would send, in order.
 */
module Dispatch {
  import opened Wrappers
  import opened Events
  import opened Slack
  import opened Sections

  const NewSponsorPhrase: string := " is a new sponsor of "
  const LostSponsorPhrase: string := " is no longer a sponsor of "

  function NewSponsorFallback(s: Sponsorship): string {
    s.sponsor.login + NewSponsorPhrase + s.sponsorable.login + "!"
  }

  function NewSponsorHeader(s: Sponsorship): string {
    ":tada: *" + s.sponsor.login + "* is a new sponsor of *" + s.sponsorable.login + "*!"
  }

  function LostSponsorFallback(s: Sponsorship): string {
    s.sponsor.login + LostSponsorPhrase + s.sponsorable.login + "..."
  }

  function LostSponsorHeader(s: Sponsorship): string {
    ":cry: *" + s.sponsor.login + "* is no longer a sponsor of *" + s.sponsorable.login + "*..."
  }

  lemma NewSponsorHeaderEmoji(s: Sponsorship)
    ensures |NewSponsorHeader(s)| >= 7 && NewSponsorHeader(s)[..7] == ":tada: "
  {
    var h := NewSponsorHeader(s);
    assert h[..8] == ":tada: *";
  }

  lemma LostSponsorHeaderEmoji(s: Sponsorship)
    ensures |LostSponsorHeader(s)| >= 6 && LostSponsorHeader(s)[..6] == ":cry: "
  {
    var h := LostSponsorHeader(s);
    assert h[..7] == ":cry: *";
  }

  /** The message sent for a `created` event. */
  function CreatedMessage(s: Sponsorship): (m: Message)
    ensures m.username == DefaultUsername && m.iconUrl == DefaultIconUrl
    ensures |m.blocks| == 2 && m.blocks[1] == NewSponsorSection(s)
    ensures m.blocks[0].kind == "section" && m.blocks[0].text.kind == "mrkdwn" && m.blocks[0].accessory.None?
    ensures |m.blocks[0].text.text| >= 7 && m.blocks[0].text.text[..7] == ":tada: "
    ensures NoSpace(s.sponsor.login) ==>
              ReadFallback(m.text) == Some((NewSponsor, s.sponsor.login, s.sponsorable.login))
  {
    NewSponsorHeaderEmoji(s);
    assert NoSpace(s.sponsor.login) ==>
             ReadFallback(NewSponsorFallback(s)) == Some((NewSponsor, s.sponsor.login, s.sponsorable.login)) by {
      if NoSpace(s.sponsor.login) { ReadNewSponsorFallback(s); }
    }
    Message(DefaultUsername, DefaultIconUrl, NewSponsorFallback(s),
            [MarkdownSection(NewSponsorHeader(s), None), NewSponsorSection(s)])
  }

  /** The message sent for a `cancelled` event. */
  function CancelledMessage(s: Sponsorship): (m: Message)
    ensures m.username == DefaultUsername && m.iconUrl == DefaultIconUrl
    ensures |m.blocks| == 2 && m.blocks[1] == CancelledSponsorSection(s)
    ensures m.blocks[0].kind == "section" && m.blocks[0].text.kind == "mrkdwn" && m.blocks[0].accessory.None?
    ensures |m.blocks[0].text.text| >= 6 && m.blocks[0].text.text[..6] == ":cry: "
    ensures NoSpace(s.sponsor.login) ==>
              ReadFallback(m.text) == Some((LostSponsor, s.sponsor.login, s.sponsorable.login))
  {
    LostSponsorHeaderEmoji(s);
    assert NoSpace(s.sponsor.login) ==>
             ReadFallback(LostSponsorFallback(s)) == Some((LostSponsor, s.sponsor.login, s.sponsorable.login)) by {
      if NoSpace(s.sponsor.login) { ReadLostSponsorFallback(s); }
    }
    Message(DefaultUsername, DefaultIconUrl, LostSponsorFallback(s),
            [MarkdownSection(LostSponsorHeader(s), None), CancelledSponsorSection(s)])
  }

  /**
   * The messages the handler sends for one event, in order: two independent
   * tests on the action tag, each contributing at most one message.
   */
  function Sends(e: Event): (sent: seq<Message>)
    ensures |sent| <= 1
  {
    (if e.Action() == "created" then [CreatedMessage(e.sponsorship)] else [])
    + (if e.Action() == "cancelled" then [CancelledMessage(e.sponsorship)] else [])
  }

  /** Reference definition: the message each action variant calls for. */
  function Notification(e: Event): Option<Message> {
    match e
    case Created(s) => Some(CreatedMessage(s))
    case Cancelled(s) => Some(CancelledMessage(s))
    case _ => None
  }

  /** The two tests on the tag send exactly what the variant calls for. */
  lemma SendsAgreesWithNotification(e: Event)
    ensures Sends(e) == ToSeq(Notification(e))
    ensures |Sends(e)| == 1 <==> e.Created? || e.Cancelled?
  {
  }

  /** The four other actions send nothing. */
  lemma OtherActionsAreSilent(e: Event)
    requires e.Action() in {"edited", "tier_changed", "pending_tier_change", "pending_cancellation"}
    ensures Sends(e) == []
  {
  }

  /** What every sent message looks like. */
  lemma SentMessageShape(e: Event, m: Message)
    requires m in Sends(e)
    ensures e.Created? || e.Cancelled?
    ensures m.username == "GitHub Sponsor"
    ensures m.iconUrl == "https://github.githubassets.com/images/modules/site/sponsors/logo-mona.svg"
    ensures |m.blocks| == 2
    ensures m.blocks[0].kind == "section" && m.blocks[0].text.kind == "mrkdwn" && m.blocks[0].accessory.None?
    ensures m.blocks[1] == if e.Created? then NewSponsorSection(e.sponsorship) else CancelledSponsorSection(e.sponsorship)
    ensures var sponsor, sponsorable := e.sponsorship.sponsor.login, e.sponsorship.sponsorable.login;
      if e.Created? then
        m.text == sponsor + " is a new sponsor of " + sponsorable + "!"
        && m.blocks[0].text.text == ":tada: *" + sponsor + "* is a new sponsor of *" + sponsorable + "*!"
      else
        m.text == sponsor + " is no longer a sponsor of " + sponsorable + "..."
        && m.blocks[0].text.text == ":cry: *" + sponsor + "* is no longer a sponsor of *" + sponsorable + "*..."
  {
  }

  /** The header of a sent message opens with `:tada: ` for a new sponsor and `:cry: ` for a lost one. */
  lemma HeaderEmoji(e: Event, m: Message)
    requires m in Sends(e)
    ensures |m.blocks| == 2
    ensures e.Created? <==> m.blocks[0].text.text[..7] == ":tada: "
    ensures e.Cancelled? <==> m.blocks[0].text.text[..6] == ":cry: "
  {
    var h := m.blocks[0].text.text;
    if e.Created? {
      assert Sends(e) == [CreatedMessage(e.sponsorship)];
      TadaIsNotCry(h);
    } else {
      assert Sends(e) == [CancelledMessage(e.sponsorship)];
      CryIsNotTada(h);
    }
  }

  lemma TadaIsNotCry(h: string)
    requires |h| >= 7 && h[..7] == ":tada: "
    ensures h[..6] != ":cry: "
  {
    assert h[1] == 't';
  }

  lemma CryIsNotTada(h: string)
    requires |h| >= 6 && h[..6] == ":cry: "
    ensures |h| < 7 || h[..7] != ":tada: "
  {
    assert h[1] == 'c';
  }

  /** The kind of change a fallback text announces. */
  datatype Change = NewSponsor | LostSponsor

  /** A GitHub login holds no space (logins are letters, digits and hyphens). */
  predicate NoSpace(login: string) {
    forall i :: 0 <= i < |login| ==> login[i] != ' '
  }

  /** The index of the first space in a text, or its length when there is none. */
  function FirstSpace(text: string): (i: nat)
    ensures i <= |text| && NoSpace(text[..i])
    ensures i < |text| ==> text[i] == ' '
  {
    if text == [] || text[0] == ' ' then 0
    else
      var i := 1 + FirstSpace(text[1..]);
      assert text[..i] == [text[0]] + text[1..][..i - 1];
      i
  }

  lemma FirstSpaceAfterLogin(login: string, rest: string)
    requires NoSpace(login) && |rest| > 0 && rest[0] == ' '
    ensures FirstSpace(login + rest) == |login|
  {
    var t := login + rest;
    var i := FirstSpace(t);
    assert forall j :: 0 <= j < |login| ==> t[j] == login[j];
    assert t[|login|] == ' ';
  }

  /** Reads the change, the sponsor and the sponsorable back out of a fallback text. */
  function ReadFallback(text: string): Option<(Change, string, string)> {
    var i := FirstSpace(text);
    ReadRest(text[..i], text[i..])
  }

  /** Splits a fallback text at the end of the sponsor's login. */
  lemma ReadFallbackSplit(login: string, rest: string)
    requires NoSpace(login) && |rest| > 0 && rest[0] == ' '
    ensures ReadFallback(login + rest) == ReadRest(login, rest)
  {
    FirstSpaceAfterLogin(login, rest);
    var t := login + rest;
    assert t[..|login|] == login && t[|login|..] == rest;
  }

  function ReadRest(sponsor: string, rest: string): Option<(Change, string, string)> {
    if |rest| >= |NewSponsorPhrase| + 1 && rest[..|NewSponsorPhrase|] == NewSponsorPhrase && rest[|rest| - 1] == '!'
    then Some((NewSponsor, sponsor, rest[|NewSponsorPhrase|..|rest| - 1]))
    else if |rest| >= |LostSponsorPhrase| + 3 && rest[..|LostSponsorPhrase|] == LostSponsorPhrase
            && rest[|rest| - 3..] == "..."
    then Some((LostSponsor, sponsor, rest[|LostSponsorPhrase|..|rest| - 3]))
    else None
  }

  lemma ReadNewSponsorFallback(s: Sponsorship)
    requires NoSpace(s.sponsor.login)
    ensures ReadFallback(NewSponsorFallback(s)) == Some((NewSponsor, s.sponsor.login, s.sponsorable.login))
  {
    var rest := NewSponsorPhrase + s.sponsorable.login + "!";
    assert NewSponsorFallback(s) == s.sponsor.login + rest;
    ReadFallbackSplit(s.sponsor.login, rest);
    assert rest[..|NewSponsorPhrase|] == NewSponsorPhrase;
    assert rest[|NewSponsorPhrase|..|rest| - 1] == s.sponsorable.login;
  }

  lemma ReadLostSponsorFallback(s: Sponsorship)
    requires NoSpace(s.sponsor.login)
    ensures ReadFallback(LostSponsorFallback(s)) == Some((LostSponsor, s.sponsor.login, s.sponsorable.login))
  {
    var rest := LostSponsorPhrase + s.sponsorable.login + "...";
    assert LostSponsorFallback(s) == s.sponsor.login + rest;
    ReadFallbackSplit(s.sponsor.login, rest);
    assert rest[..|NewSponsorPhrase|] != NewSponsorPhrase by {
      assert rest[4] != NewSponsorPhrase[4];
    }
    assert rest[..|LostSponsorPhrase|] == LostSponsorPhrase;
    assert rest[|rest| - 3..] == "...";
    assert rest[|LostSponsorPhrase|..|rest| - 3] == s.sponsorable.login;
  }

  /** The fallback text of every sent message names the change and both logins recoverably. */
  lemma ReadFallbackOfSent(e: Event, m: Message)
    requires m in Sends(e)
    requires NoSpace(e.sponsorship.sponsor.login)
    ensures ReadFallback(m.text)
         == Some((if e.Created? then NewSponsor else LostSponsor,
                  e.sponsorship.sponsor.login, e.sponsorship.sponsorable.login))
  {
    if e.Created? {
      ReadNewSponsorFallback(e.sponsorship);
    } else {
      ReadLostSponsorFallback(e.sponsorship);
    }
  }
}
