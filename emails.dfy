/**
 * The confirmation message: its subject, its body rendered from a fixed
 * template with four placeholders, and the single send through the mail
 * service, whose HTTP exchange is a function parameter.
 */
module Emails {
  import opened Wrappers

  /** `t` occurs in `s` starting at index `i`. */
  ghost predicate OccursAt(t: string, s: string, i: int)
  {
    0 <= i && i + |t| <= |s| && s[i..i + |t|] == t
  }

  /** `t` occurs somewhere in `s`. */
  ghost predicate Contains(s: string, t: string)
  {
    exists i :: OccursAt(t, s, i)
  }

  // ---------------------------------------------------------------- decimal numerals

  function DigitChar(d: nat): (c: char)
    requires d < 10
    ensures '0' <= c <= '9'
  {
    '0' + d as char
  }

  /** The decimal numeral of `n`, without leading zeros. */
  function NatToDecimal(n: nat): (s: string)
    ensures |s| > 0
    ensures forall i :: 0 <= i < |s| ==> '0' <= s[i] <= '9'
    ensures |s| > 1 ==> s[0] != '0'
  {
    if n < 10 then [DigitChar(n)] else NatToDecimal(n / 10) + [DigitChar(n % 10)]
  }

  /** The value of a numeral made of decimal digits. */
  function DecimalValue(s: string): nat
    requires forall i :: 0 <= i < |s| ==> '0' <= s[i] <= '9'
  {
    if |s| == 0 then 0 else 10 * DecimalValue(s[..|s| - 1]) + (s[|s| - 1] - '0') as nat
  }

  /** Reading back the numeral gives the number it was written from. */
  lemma {:induction false} DecimalRoundTrip(n: nat)
    ensures DecimalValue(NatToDecimal(n)) == n
  {
    var s := NatToDecimal(n);
    if n >= 10 {
      DecimalRoundTrip(n / 10);
      assert s[..|s| - 1] == NatToDecimal(n / 10);
    }
  }

  /** How an integer is written into a string: an optional minus sign, then its decimal digits. */
  function IntToDecimal(k: int): string
  {
    if k < 0 then "-" + NatToDecimal(-k) else NatToDecimal(k)
  }

  /** An integer's numeral is its digits, after a minus sign when negative, and the digits read back as its magnitude. */
  lemma IntToDecimalReadsBack(k: int)
    ensures var s := IntToDecimal(k);
      k >= 0 ==> |s| > 0 && (forall i :: 0 <= i < |s| ==> '0' <= s[i] <= '9') && DecimalValue(s) == k
    ensures var s := IntToDecimal(k);
      k < 0 ==> |s| > 1 && s[0] == '-' && (forall i :: 1 <= i < |s| ==> '0' <= s[i] <= '9') && DecimalValue(s[1..]) == -k
  {
    if k < 0 {
      DecimalRoundTrip(-k);
      assert IntToDecimal(k)[1..] == NatToDecimal(-k);
    } else {
      DecimalRoundTrip(k);
    }
  }

  // ---------------------------------------------------------------- the template

  /** The placeholders of the confirmation template. */
  datatype Slot = NameSlot | DatafileSlot | LinkTimeSlot | UrlSlot

  /** A template is literal text interleaved with placeholders. */
  datatype Piece = Lit(text: string) | Hole(slot: Slot)

  /** The values substituted for the placeholders. */
  datatype Args = Args(name: string, datafile: string, linkTime: int, url: string)

  function SlotText(slot: Slot, a: Args): string
  {
    match slot
    case NameSlot => a.name
    case DatafileSlot => a.datafile
    case LinkTimeSlot => IntToDecimal(a.linkTime)
    case UrlSlot => a.url
  }

  function PieceText(p: Piece, a: Args): string
  {
    match p
    case Lit(text) => text
    case Hole(slot) => SlotText(slot, a)
  }

  /** Substitutes every placeholder of `t` by its value, left to right. */
  function Format(t: seq<Piece>, a: Args): string
  {
    if |t| == 0 then "" else PieceText(t[0], a) + Format(t[1..], a)
  }

  /** A template of four placeholders separated by literal text renders to the texts and the values in turn. */
  lemma {:induction false} FormatFourSlots(g: string, p1: string, p2: string, p3: string, c: string, a: Args)
    ensures Format([Lit(g), Hole(NameSlot), Lit(p1), Hole(DatafileSlot), Lit(p2), Hole(LinkTimeSlot),
                    Lit(p3), Hole(UrlSlot), Lit(c)], a)
         == g + (a.name + (p1 + (a.datafile + (p2 + (IntToDecimal(a.linkTime) + (p3 + (a.url + c)))))))
  {
    var t := [Lit(g), Hole(NameSlot), Lit(p1), Hole(DatafileSlot), Lit(p2), Hole(LinkTimeSlot),
              Lit(p3), Hole(UrlSlot), Lit(c)];
    var n := IntToDecimal(a.linkTime);
    assert t[8..][1..] == [];
    assert Format(t[8..], a) == c;
    assert t[7..][1..] == t[8..];
    assert Format(t[7..], a) == a.url + c;
    assert t[6..][1..] == t[7..];
    assert Format(t[6..], a) == p3 + (a.url + c);
    assert t[5..][1..] == t[6..];
    assert Format(t[5..], a) == n + (p3 + (a.url + c));
    assert t[4..][1..] == t[5..];
    assert Format(t[4..], a) == p2 + Format(t[5..], a);
    assert t[3..][1..] == t[4..];
    assert Format(t[3..], a) == a.datafile + Format(t[4..], a);
    assert t[2..][1..] == t[3..];
    assert Format(t[2..], a) == p1 + Format(t[3..], a);
    assert t[1..][1..] == t[2..];
    assert Format(t[1..], a) == a.name + Format(t[2..], a);
  }

  const Greeting := "\nDear "
  const AfterName := ",\n\nThank you for requesting the "
  const ValidFor := "valid for "
  const Lead := " file, your access link is now available.\n\nThis link is a one-time link and will be "
  const AfterDatafile := Lead + ValidFor
  const Hours := " hours"
  const Tail := ". \n\nYou can download the file here: "
  const AfterLinkTime := Hours + Tail
  const Closing := "\n\nPlease contact support@datacite.org with any questions or feedback about the file. \n\n\nDataCite\nAm Welfengarten 1B\n30167 Hannover\nGermany\nEmail: support@datacite.org\n"

  /** The confirmation body template: greeting, datafile, validity window in hours, download URL. */
  const ConfirmationTemplate: seq<Piece> := [
    Lit(Greeting), Hole(NameSlot),
    Lit(AfterName), Hole(DatafileSlot),
    Lit(AfterDatafile), Hole(LinkTimeSlot),
    Lit(AfterLinkTime), Hole(UrlSlot),
    Lit(Closing)
  ]

  lemma OccursHere(t: string, y: string)
    ensures OccursAt(t, t + y, 0)
  {
  }

  lemma OccursShift(t: string, x: string, y: string, i: int)
    requires OccursAt(t, y, i)
    ensures OccursAt(t, x + y, |x| + i)
  {
  }

  /** Where each substituted value lands in the rendered confirmation body. */
  lemma BodyLayout(a: Args)
    ensures OccursAt("Dear " + a.name + ",", Format(ConfirmationTemplate, a), 1)
    ensures Contains(Format(ConfirmationTemplate, a), a.datafile)
    ensures Contains(Format(ConfirmationTemplate, a), ValidFor + IntToDecimal(a.linkTime) + Hours)
    ensures Contains(Format(ConfirmationTemplate, a), a.url)
  {
    var n := IntToDecimal(a.linkTime);
    FormatFourSlots(Greeting, AfterName, AfterDatafile, AfterLinkTime, Closing, a);
    var r3 := a.url + Closing;
    var r2 := n + (AfterLinkTime + r3);
    var r1 := a.datafile + (AfterDatafile + r2);
    var body := Format(ConfirmationTemplate, a);
    assert body == Greeting + (a.name + (AfterName + r1));
    // the URL and the datafile name
    OccursHere(a.url, Closing);
    Shift4(a.url, AfterLinkTime, n, AfterDatafile, a.datafile, r3, 0);
    OccursHere(a.datafile, AfterDatafile + r2);
    Shift3(a.url, AfterName, a.name, Greeting, r1, |a.datafile| + |AfterDatafile| + |n| + |AfterLinkTime|);
    Shift3(a.datafile, AfterName, a.name, Greeting, r1, 0);
    // the validity window
    var w := ValidFor + n + Hours;
    WindowInside(Lead, n, Tail, r3);
    OccursShift(w, a.datafile, AfterDatafile + r2, |Lead|);
    Shift3(w, AfterName, a.name, Greeting, r1, |a.datafile| + |Lead|);
    // the greeting
    assert Greeting == "\n" + "Dear " && AfterName[0] == ',';
    GreetingAt(Greeting, a.name, AfterName, r1);
  }

  lemma Shift3(t: string, x: string, y: string, z: string, r: string, i: int)
    requires OccursAt(t, r, i)
    ensures OccursAt(t, z + (y + (x + r)), |z| + |y| + |x| + i)
  {
  }

  lemma Shift4(t: string, x: string, y: string, z: string, v: string, r: string, i: int)
    requires OccursAt(t, r, i)
    ensures OccursAt(t, v + (z + (y + (x + r))), |v| + |z| + |y| + |x| + i)
  {
  }

  /** The window text straddles the end of one literal, the number, and the start of the next. */
  lemma WindowInside(lead: string, n: string, tail: string, r: string)
    ensures OccursAt(ValidFor + n + Hours, (lead + ValidFor) + (n + ((Hours + tail) + r)), |lead|)
  {
  }

  lemma GreetingAt(g: string, name: string, p1: string, r: string)
    requires g == "\n" + "Dear " && |p1| > 0 && p1[0] == ','
    ensures OccursAt("Dear " + name + ",", g + (name + (p1 + r)), 1)
  {
  }

  // ---------------------------------------------------------------- composing and sending

  /** One message handed to the mail service. */
  datatype Message = Message(to: string, subject: string, text: string)

  /** The mail service's answer to one send: an HTTP response, or a failure to reach it. */
  datatype MailReply = Response(status: int, json: string) | Unreachable

  /** Why a send raised: a non-success status, or the transport failed. */
  datatype HttpError = StatusError(status: int) | TransportError

  /** A send succeeds only on a 2xx status; otherwise it raises. */
  function SendEmail(reply: MailReply): (r: Result<string, HttpError>)
    ensures r.Ok? <==> reply.Response? && 200 <= reply.status < 300
    ensures r.Ok? ==> r.value == reply.json
    ensures reply.Response? && !(200 <= reply.status < 300) ==> r == Err(StatusError(reply.status))
  {
    match reply
    case Unreachable => Err(TransportError)
    case Response(status, json) =>
      if 200 <= status < 300 then Ok(json) else Err(StatusError(status))
  }

  function ConfirmationSubject(datafile: string): string
  {
    "Your access link for the " + datafile + " data file"
  }

  /**
   * The confirmation message for a requester: addressed to `to`, its subject
   * naming the datafile, its body greeting the requester by name and giving
   * the datafile, the validity window in hours and the download URL verbatim.
   */
  function ConfirmationEmail(to: string, name: string, datafile: string, linkTime: int, url: string): (m: Message)
    ensures m.to == to
    ensures m.subject == "Your access link for the " + datafile + " data file"
    ensures OccursAt("Dear " + name + ",", m.text, 1)
    ensures Contains(m.text, datafile)
    ensures Contains(m.text, ValidFor + IntToDecimal(linkTime) + Hours)
    ensures Contains(m.text, url)
  {
    var a := Args(name, datafile, linkTime, url);
    var body := Format(ConfirmationTemplate, a);
    BodyLayout(a);
    Message(to, ConfirmationSubject(datafile), body)
  }

  /** What one confirmation send amounts to: the single message sent, and what the send returned or raised. */
  datatype Delivery = Delivery(sent: Message, outcome: Result<string, HttpError>)

  /**
   * Composes the confirmation and sends it once through `mailService`; a
   * non-success reply is propagated as the error, never turned into a value.
   */
  function SendConfirmationEmail(to: string, name: string, datafile: string, linkTime: int, url: string,
                                 mailService: Message -> MailReply): (d: Delivery)
    ensures d.sent == ConfirmationEmail(to, name, datafile, linkTime, url)
    ensures d.sent.to == to
    ensures d.outcome.Ok? <==> mailService(d.sent).Response? && 200 <= mailService(d.sent).status < 300
    ensures d.outcome == SendEmail(mailService(d.sent))
  {
    var m := ConfirmationEmail(to, name, datafile, linkTime, url);
    Delivery(m, SendEmail(mailService(m)))
  }
}
