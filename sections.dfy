/**
 * The two sponsor-section builders: `newSponsorSection` names the sponsor,
 * the tier with its monthly price and the sponsorable, with the sponsor's
 * avatar beside it; `cancelledSponsorSection` shows the same text struck
 * through.  As in the source, the closing `)` of the price runs straight
 * into `sponsor of`, with no space between them.
 */
module Sections {
  import opened Wrappers
  import opened Decimal
  import opened Events
  import opened Slack

  /** Reads the dollar amount back out of a price label. */
  function PriceFromLabel(shown: string): Option<int> {
    if |shown| >= 12 && shown[..2] == "($" && shown[|shown| - 10..] == ".00/month)"
    then DecimalToInt(shown[2..|shown| - 10])
    else None
  }

  /** The price as the section shows it, `($<dollars>.00/month)`; it carries exactly the tier's price. */
  function PriceLabel(dollars: int): (shown: string)
    ensures PriceFromLabel(shown) == Some(dollars)
  {
    var digits := IntToDecimal(dollars);
    var shown := "($" + digits + ".00/month)";
    assert shown[..2] == "($" && shown[|shown| - 10..] == ".00/month)" && shown[2..|shown| - 10] == digits;
    DecimalToIntOfIntToDecimal(dollars);
    shown
  }

  /** The sponsor's part of the section text: bold login, then a link to the profile labelled with the account id. */
  function SponsorMention(a: Account): string {
    "*" + a.login + "*" + (" (<" + a.url + "|" + IntToDecimal(a.id) + ">)")
  }

  /** The tier's part: bold tier name, then the price label. */
  function TierMention(t: Tier): string {
    ": *" + t.name + "* " + PriceLabel(t.monthlyPriceInDollars)
  }

  /** The sponsorable's part: a bold link to the profile labelled with the account id. */
  function SponsorableMention(a: Account): string {
    "sponsor of *<" + a.url + "|" + IntToDecimal(a.id) + ">" + "*"
  }

  /** The markup text of a new-sponsor section: it opens with the bold sponsor login and closes the sponsorable's bold link. */
  function SponsorText(s: Sponsorship): (text: string)
    ensures |text| >= |s.sponsor.login| + 4
    ensures text[..|s.sponsor.login| + 2] == "*" + s.sponsor.login + "*"
    ensures text[|text| - 2..] == ">*"
  {
    SponsorMention(s.sponsor) + TierMention(s.tier) + SponsorableMention(s.sponsorable)
  }

  /** Slack strike-through markup around a text. */
  function Strike(text: string): string {
    "~ " + text + " ~"
  }

  /** Removes strike-through markup, if the text carries it. */
  function Unstrike(text: string): Option<string> {
    if |text| >= 4 && text[..2] == "~ " && text[|text| - 2..] == " ~"
    then Some(text[2..|text| - 2])
    else None
  }

  lemma UnstrikeStrike(text: string)
    ensures Unstrike(Strike(text)) == Some(text)
  {
    var t := Strike(text);
    assert t[..2] == "~ " && t[|t| - 2..] == " ~" && t[2..|t| - 2] == text;
  }

  function NewSponsorSection(s: Sponsorship): (b: Block)
    ensures b.kind == "section" && b.text.kind == "mrkdwn"
    ensures b.accessory == Some(Accessory("image", s.sponsor.avatarUrl))
  {
    MarkdownSection(SponsorText(s), Some(ImageAccessory(s.sponsor.avatarUrl)))
  }

  /**
   * The markup text of a cancelled-sponsor section, written out on its own as
   * the source does; its contract relates it to the new-sponsor text.
   */
  function StruckSponsorText(s: Sponsorship): (text: string)
    ensures text == Strike(SponsorText(s))
  {
    var sponsorLink := " (<" + s.sponsor.url + "|" + IntToDecimal(s.sponsor.id) + ">)";
    var sponsorableLink := "sponsor of *<" + s.sponsorable.url + "|" + IntToDecimal(s.sponsorable.id) + ">";
    StrikeRegroups(s.sponsor.login, sponsorLink, TierMention(s.tier), sponsorableLink);
    "~ *" + s.sponsor.login + "*" + sponsorLink + TierMention(s.tier) + sponsorableLink + "* ~"
  }

  /** Moving the strike markers of the cancelled template outside the new-sponsor template. */
  lemma StrikeRegroups(login: string, link: string, tier: string, sponsorable: string)
    ensures "~ *" + login + "*" + link + tier + sponsorable + "* ~"
         == Strike(("*" + login + "*" + link) + tier + (sponsorable + "*"))
  {
  }

  function CancelledSponsorSection(s: Sponsorship): (b: Block)
    ensures b.kind == "section" && b.text.kind == "mrkdwn"
    ensures b.accessory == Some(Accessory("image", s.sponsor.avatarUrl))
    ensures b.text.text == Strike(NewSponsorSection(s).text.text)
  {
    MarkdownSection(StruckSponsorText(s), Some(ImageAccessory(s.sponsor.avatarUrl)))
  }

  /** Un-striking a cancelled section gives back the new-sponsor text, and the two never coincide. */
  lemma CancelledUnstrikesToNew(s: Sponsorship)
    ensures Unstrike(CancelledSponsorSection(s).text.text) == Some(NewSponsorSection(s).text.text)
    ensures CancelledSponsorSection(s) != NewSponsorSection(s)
  {
    UnstrikeStrike(NewSponsorSection(s).text.text);
  }

  lemma PrefixCancels(a: string, x: string, y: string)
    requires a + x == a + y
    ensures x == y
  {
    assert x == (a + x)[|a|..];
    assert y == (a + y)[|a|..];
  }

  lemma SuffixCancels(x: string, y: string, c: string)
    requires x + c == y + c
    ensures x == y
  {
    assert x == (x + c)[..|x|];
    assert y == (y + c)[..|y|];
  }

  /** The bold tier name is followed at once by the price label: the text split around the label. */
  lemma SponsorTextAroundPrice(s: Sponsorship)
    ensures SponsorText(s)
         == (SponsorMention(s.sponsor) + ": *" + s.tier.name + "* ")
          + (PriceLabel(s.tier.monthlyPriceInDollars) + SponsorableMention(s.sponsorable))
  {
  }

  /** The section text pins down the price: changing only the price always changes the text. */
  lemma SponsorTextDeterminesPrice(s: Sponsorship, dollars: int)
    ensures SponsorText(s.(tier := s.tier.(monthlyPriceInDollars := dollars))) == SponsorText(s)
        <==> dollars == s.tier.monthlyPriceInDollars
  {
    var s' := s.(tier := s.tier.(monthlyPriceInDollars := dollars));
    if SponsorText(s') == SponsorText(s) {
      var head := SponsorMention(s.sponsor) + ": *" + s.tier.name + "* ";
      var tail := SponsorableMention(s.sponsorable);
      var oldPrice, newPrice := PriceLabel(s.tier.monthlyPriceInDollars), PriceLabel(dollars);
      SponsorTextAroundPrice(s);
      SponsorTextAroundPrice(s');
      PrefixCancels(head, newPrice + tail, oldPrice + tail);
      SuffixCancels(newPrice, oldPrice, tail);
    }
  }
}
