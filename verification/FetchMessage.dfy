/** The command that fetches whole messages: what it makes of each response, end to end. */
module FetchMessages {
  import C = Commands
  import opened Decimal
  import opened EndToEnd
  import opened FetchFrames
  import opened FetchWalk
  import opened Framing
  import opened MailRoundTrips
  import opened MailTexts
  import opened ResponseParsers
  import T = Tokens
  import opened Wrappers

  /** The messages one response contributes. */
  function Assembled(r: Response): seq<Mail> {
    if !r.Untagged? || r.kind != C.Fetch then []
    else
      match BodySection(r.payload, "BODY[]")
      case Some(Some(text)) => [ParseMail(text)]
      case _ => []
  }

  class FetchMessageCommand {
    var messages: seq<Mail>

    constructor ()
      ensures messages == []
    {
      messages := [];
    }

    /** Splits the message of a BODY[] section and appends it; other responses are ignored. */
    method OnUntagged(r: Response)
      requires r.Untagged?
      modifies this
      ensures messages == old(messages) + Assembled(r)
    {
      hide BodySection, ParseBlock, Find;
      if r.kind != C.Fetch {
        return;
      }
      var section := ParseBodySectionAttribute(r.payload, "BODY[]");
      match section {
        case Some(Some(text)) =>
          var split, skip := Find(text, "\r\n\r\n"), 4;
          if split.None? {
            split := Find(text, "\n\n");
            skip := 2;
          }
          var block, body := text, "";
          if split.Some? {
            block, body := text[..split.value], text[split.value + skip..];
          }
          var header := ParseHeaderBlock(block);
          messages := messages + [Mail(header, "", body)];
        case _ =>
      }
    }
  }

  /**
   A clean mail served as the literal of a FETCH response, among any other attributes and in
   front of any further bytes. When no literal stands directly behind a parenthesis the
   response is one frame, classified as message data; the command assembles a mail if and only
   if every other value can be skipped; and that mail is exactly the one served, provided a
   field was printed or the body is empty.
   */
  lemma FetchedMailIsTheMail(n: nat, before: seq<Attribute>, m: Mail, after: seq<Attribute>, more: string)
    requires n < TWO_TO_THE_64 && T.Fits(MailText(m)) && CleanMail(m)
    requires OtherAttributes(before) && OtherAttributes(after)
    requires LineAttributes(before + after) && AllApart(before + after)
    ensures var t := FetchResponse(n, PrintAttributes(WithBody(before, MailText(m), after)));
            && Frames(t + "\r\n" + more) == [t] + Frames(more)
            && Classify(t).Some?
            && var mails := Assembled(Classify(t).value);
               && (mails != [] <==> AllSkippable(before) && AllSkippable(after))
               && |mails| <= 1
               && (mails != [] ==> (mails[0] == m.(contentType := "") <==> FieldsOf(m) != [] || m.data == ""))
  {
    hide Classify, BodySection, MailText, ParseMail, FetchResponse, PrintAttributes, WithBody, Frames, CleanMail, FieldsOf,
         OtherAttributes, AllSkippable, LineAttributes, AllApart;
    LiteralsAreOpaque(n, before, MailText(m), after, more);
    MailRoundTrip(m);
  }

  /** Flags in front of the message, as servers send them with it: no mail is assembled. */
  lemma FlagsLoseTheMail(n: nat, rest: string)
    requires n < TWO_TO_THE_64
    ensures var r := Classify(FetchResponse(n, "(FLAGS (\\Seen) " + rest));
            r.Some? && Assembled(r.value) == []
  {
    hide Classify, FetchResponse, BodySection;
    FlagsHideTheSection(rest);
    FetchClassified(n, "(FLAGS (\\Seen) " + rest);
  }
}
