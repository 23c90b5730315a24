/**
 * The booking-confirmation e-mail template: a fixed subject and an HTML body
 * that greets the customer and lists the payment reference and amount.
 */
module ConfirmationEmail {
  import opened Wrappers
  import opened Text

  datatype UserData = UserData(name: string, email: string)

  /** The booking facts the template reads. `amount` is the amount's text as the
      template interpolates it; the reference may be missing. */
  datatype BookingData = BookingData(referenceNumber: Option<string>, amount: string)

  datatype Email = Email(subject: string, html: string)

  const Subject: string := "\U{1F389} Booking Confirmed! Welcome to My Productive Space"

  /** The document up to the greeting. */
  const Head: string :=
    "<!DOCTYPE html>\n<html lang=\"en\">\n<head>\n<meta charset=\"UTF-8\">\n"
    + "<title>Booking Confirmation</title>\n</head>\n<body>\n"

  const GreetingOpen: string := "<h2>Hello "

  function Greeting(name: string): string {
    GreetingOpen + name + ",</h2>\n"
  }

  /** `reference_number || 'N/A'` */
  function ShownReference(reference: Option<string>): (r: string)
    ensures reference.Some? && reference.value != "" ==> r == reference.value
    ensures reference.None? || reference.value == "" ==> r == "N/A"
    ensures r != ""
  {
    if reference.Some? && reference.value != "" then reference.value else "N/A"
  }

  function ReferenceLine(reference: Option<string>): string {
    "<p><strong>Reference Number:</strong> " + ShownReference(reference) + "</p>\n"
  }

  function AmountLine(amount: string): string {
    "<p><strong>Amount Paid:</strong> SGD " + amount + "</p>\n"
  }

  const Intro: string := "<p>Thank you for booking with us!</p>\n\n<h3>\U{1F4CB} Payment Details</h3>\n"

  /** The closing lines; `dateText` and `timeText` are the current date and time as
      the Singapore locale prints them. */
  function Closing(dateText: string, timeText: string): string {
    "<p><strong>Date:</strong> " + dateText + "</p>\n"
    + "<p><strong>Time:</strong> " + timeText + "</p>\n\n"
    + "<p>We look forward to seeing you \U{1F389}</p>\n</body>\n</html>\n"
  }

  function Html(user: UserData, booking: BookingData, dateText: string, timeText: string): string {
    Head + Greeting(user.name) + Intro + ReferenceLine(booking.referenceNumber)
    + AmountLine(booking.amount) + Closing(dateText, timeText)
  }

  /** Where the second, fourth and fifth of six concatenated pieces sit. */
  lemma PiecesOccur(a: string, b: string, c: string, d: string, e: string, f: string)
    ensures OccursAt(b, a + b + c + d + e + f, |a|)
    ensures OccursAt(d, a + b + c + d + e + f, |a| + |b| + |c|)
    ensures OccursAt(e, a + b + c + d + e + f, |a| + |b| + |c| + |d|)
  {
    var s := a + b + c + d + e + f;
    assert s == a + b + (c + d + e + f);
    assert s == (a + b + c) + d + (e + f);
    assert s == (a + b + c + d) + e + f;
  }

  /** The template: a constant subject, and a body that greets the user by name and
      shows the reference (or 'N/A') and the amount in SGD. */
  function Render(user: UserData, booking: BookingData, dateText: string, timeText: string): (e: Email)
    ensures e.subject == Subject
    ensures Includes(e.html, Greeting(user.name))
    ensures Includes(e.html, ReferenceLine(booking.referenceNumber))
    ensures Includes(e.html, AmountLine(booking.amount))
  {
    PiecesOccur(Head, Greeting(user.name), Intro, ReferenceLine(booking.referenceNumber),
                AmountLine(booking.amount), Closing(dateText, timeText));
    Email(Subject, Html(user, booking, dateText, timeText))
  }

  /** The greeting is at a fixed place, so the name can be read back from the body. */
  lemma NameReadBack(user: UserData, booking: BookingData, dateText: string, timeText: string)
    ensures var html := Render(user, booking, dateText, timeText).html;
            var start := |Head| + |GreetingOpen|;
            start + |user.name| <= |html| && html[start..start + |user.name|] == user.name
  {
    NameSlot(Head, GreetingOpen, user.name, ",</h2>\n", Intro, ReferenceLine(booking.referenceNumber),
             AmountLine(booking.amount), Closing(dateText, timeText));
  }

  lemma NameSlot(h: string, o: string, n: string, c: string, i: string, r: string, a: string, t: string)
    ensures var s := h + (o + n + c) + i + r + a + t;
            |h| + |o| + |n| <= |s| && s[|h| + |o|..|h| + |o| + |n|] == n
  {
    var s := h + (o + n + c) + i + r + a + t;
    assert s == (h + o) + n + (c + i + r + a + t);
  }

  /** The subject does not depend on the user or the booking. */
  lemma SubjectIsConstant(u1: UserData, b1: BookingData, u2: UserData, b2: BookingData,
                          d1: string, t1: string, d2: string, t2: string)
    ensures Render(u1, b1, d1, t1).subject == Render(u2, b2, d2, t2).subject
  {
  }

  /** A missing or empty reference shows as 'N/A', and only then. */
  lemma ReferenceFallback(reference: Option<string>)
    ensures ShownReference(reference) == "N/A" <==>
              reference.None? || reference.value == "" || reference.value == "N/A"
  {
  }
}
