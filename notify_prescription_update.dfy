/** The prescription e-mail: what it says, and the HTML that says it. */
module PrescriptionEmail {
  import opened Options
  import opened Records
  import Text

  /**
   * The values the e-mail body is built from: the status text and colour, the two names, and
   * for each of the two boxes whether it is shown and the text it would carry.
   */
  datatype Letter = Letter(
    statusText: string,
    statusColor: string,
    recipientName: string,
    pharmacistName: string,
    showComments: bool,
    comments: string,
    showRejection: bool,
    rejectionReason: string)

  /** The title, the greeting and the sentence announcing the decision. */
  function Header(statusText: string, statusColor: string, name: string, pharmacistName: string): string {
    "\n      <div style=\"font-family: Arial, sans-serif; max-width: 600px; margin: 0 auto;\">\n        <h2 style=\"color: #333;\">Prescription " + statusText + "</h2>\n        <p>Dear " + name + ",</p>\n        <p>Your prescription has been <strong style=\"color: " + statusColor + ";\">"
    + Text.Lower(statusText) + "</strong> by " + pharmacistName + ".</p>\n    "
  }

  /** A highlighted box: background and border colours, a coloured title, one paragraph of text. */
  function Block(background: string, border: string, titleColor: string, title: string, text: string): string {
    BoxOpen(background, border, titleColor) + title + TitleClose + text + BoxClose
  }

  /** The box's frame and the opening of its title, in the given colours. */
  function BoxOpen(background: string, border: string, titleColor: string): string {
    "\n        <div style=\"background-color: " + background + "; border-left: 4px solid " + border + "; padding: 15px; margin: 20px 0;\">\n          <h3 style=\"margin: 0 0 10px 0; color: " + titleColor + ";\">"
  }

  const TitleClose: string := "</h3>\n          <p style=\"margin: 0;\">"

  const BoxClose: string := "</p>\n        </div>\n      "

  /** A string occurs in any string built around it. */
  lemma OccursInside(before: string, x: string, after: string)
    ensures Text.Contains(before + x + after, x)
  {
    var s := before + x + after;
    assert s[|before|..|before| + |x|] == x;
    assert Text.OccursAt(s, x, |before|);
  }

  /** A string occurs in any string that continues it with three more pieces. */
  lemma OccursBeforeThree(before: string, x: string, a: string, b: string, c: string)
    ensures Text.Contains(before + x + a + b + c, x)
  {
    OccursInside(before, x, a + b + c);
    assert before + x + a + b + c == before + x + (a + b + c);
  }

  /** A box shows its title. */
  lemma BlockShowsTitle(background: string, border: string, titleColor: string, title: string, text: string)
    ensures Text.Contains(Block(background, border, titleColor, title, text), title)
  {
    OccursBeforeThree(BoxOpen(background, border, titleColor), title, TitleClose, text, BoxClose);
  }

  /** A box shows its text. */
  lemma BlockShowsText(background: string, border: string, titleColor: string, title: string, text: string)
    ensures Text.Contains(Block(background, border, titleColor, title, text), text)
  {
    OccursInside(BoxOpen(background, border, titleColor) + title + TitleClose, text, BoxClose);
  }

  /** The blue box with the pharmacist's comments. */
  function CommentsBlock(comments: string): string {
    Block("#f0f9ff", "#3b82f6", "#1e40af", "Pharmacist Comments:", comments)
  }

  /** The red box with the rejection reason. */
  function RejectionBlock(reason: string): string {
    Block("#fef2f2", "#ef4444", "#b91c1c", "Rejection Reason:", reason)
  }

  /** The dashboard line and the sign-off that close every e-mail. */
  const Footer: string :=
    "\n        <p>You can view your prescription details in your dashboard.</p>\n        <p style=\"margin-top: 30px;\">Best regards,<br>MedStore Pharmacy Team</p>\n      </div>\n    "

  /** A header, then each box that is shown, then a footer. */
  function Assemble(header: string, showFirst: bool, first: string, showSecond: bool, second: string, footer: string): string {
    header + (if showFirst then first else "") + (if showSecond then second else "") + footer
  }

  /**
   * An assembled body opens with its header and closes with its footer, a shown first box
   * follows the header directly, and with no box shown nothing lies between header and footer.
   */
  lemma AssembleLayout(header: string, showFirst: bool, first: string, showSecond: bool, second: string, footer: string)
    ensures var body := Assemble(header, showFirst, first, showSecond, second, footer);
      && header <= body
      && |header| + |footer| <= |body| && body[|body| - |footer|..] == footer
      && (showFirst ==> header + first <= body)
      && (!showFirst && showSecond ==> header + second <= body)
      && (!showFirst && !showSecond ==> body == header + footer)
  {
    var a := if showFirst then first else "";
    var b := if showSecond then second else "";
    var body := header + a + b + footer;
    assert body == (header + a) + (b + footer);
    assert body == (header + a + b) + footer;
    assert body[|body| - |footer|..] == footer;
  }

  /** The e-mail body: the header, the comments box or the rejection box when shown, the footer. */
  function HtmlAfter(header: string, showComments: bool, comments: string, showRejection: bool, reason: string): string {
    Assemble(header, showComments, CommentsBlock(comments), showRejection, RejectionBlock(reason), Footer)
  }

  /** Shown comments appear in the body. */
  lemma ShownCommentsInBody(header: string, comments: string, showRejection: bool, reason: string)
    ensures Text.Contains(HtmlAfter(header, true, comments, showRejection, reason), comments)
  {
    var cb := CommentsBlock(comments);
    AssembleLayout(header, true, cb, showRejection, RejectionBlock(reason), Footer);
    BlockShowsText("#f0f9ff", "#3b82f6", "#1e40af", "Pharmacist Comments:", comments);
    Text.ContainsAfterPrefix(header, cb, comments);
    Text.ContainsInLonger(header + cb, HtmlAfter(header, true, comments, showRejection, reason), comments);
  }

  /** A shown rejection reason appears in the body when the comments box is not shown. */
  lemma ShownReasonInBody(header: string, comments: string, reason: string)
    ensures Text.Contains(HtmlAfter(header, false, comments, true, reason), reason)
  {
    var rb := RejectionBlock(reason);
    AssembleLayout(header, false, CommentsBlock(comments), true, rb, Footer);
    BlockShowsText("#fef2f2", "#ef4444", "#b91c1c", "Rejection Reason:", reason);
    Text.ContainsAfterPrefix(header, rb, reason);
    Text.ContainsInLonger(header + rb, HtmlAfter(header, false, comments, true, reason), reason);
  }

  /** The pharmacist-comments `+=`, taken only when the box is shown. */
  method AppendComments(body: string, showComments: bool, comments: string) returns (r: string)
    ensures r == body + (if showComments then CommentsBlock(comments) else "")
  {
    r := body;
    if showComments {
      r := r + CommentsBlock(comments);
    }
  }

  /** The rejection-reason `+=`, taken only when the box is shown. */
  method AppendRejection(body: string, showRejection: bool, reason: string) returns (r: string)
    ensures r == body + (if showRejection then RejectionBlock(reason) else "")
  {
    r := body;
    if showRejection {
      r := r + RejectionBlock(reason);
    }
  }

  /** The two conditional `+=` appends and the closing one. */
  method AppendBlocks(header: string, showComments: bool, comments: string, showRejection: bool, reason: string)
    returns (body: string)
    ensures body == HtmlAfter(header, showComments, comments, showRejection, reason)
  {
    body := AppendComments(header, showComments, comments);
    body := AppendRejection(body, showRejection, reason);
    body := body + Footer;
  }

  /**
   * `emailBody`: the opening template, then the appends. The body is the letter's header, then
   * the box it shows, if any, then the footer.
   */
  method ComposeBody(letter: Letter) returns (body: string)
    ensures body == HtmlAfter(Header(letter.statusText, letter.statusColor, letter.recipientName, letter.pharmacistName),
                              letter.showComments, letter.comments, letter.showRejection, letter.rejectionReason)
  {
    var header := Header(letter.statusText, letter.statusColor, letter.recipientName, letter.pharmacistName);
    body := AppendBlocks(header, letter.showComments, letter.comments, letter.showRejection, letter.rejectionReason);
  }
}

/**
 * The `notify-prescription-update` edge function: it looks up the prescription's owner and their
 * e-mail address, composes the approval or rejection e-mail and answers with 200 or 500.
 */
module NotifyPrescriptionUpdate {
  import opened Options
  import opened Records
  import opened PrescriptionEmail
  import Text

  /** The e-mail handed to the mail provider; `ComposeBody` lays its letter out as HTML. */
  datatype Email = Email(sender: string, recipients: seq<string>, subject: string, letter: Letter)

  datatype ResponseBody = NoBody | Sent(email: Email) | Failure(message: string)

  datatype Response = Response(status: int, body: ResponseBody)

  const Sender := "MedStore <onboarding@resend.dev>"

  /** Any status other than "approved" reads as a rejection. */
  function StatusText(status: string): (r: string)
    ensures r == "Approved" || r == "Rejected"
    ensures r == "Approved" <==> status == "approved"
  {
    if status == "approved" then "Approved" else "Rejected"
  }

  /** Green for an approval, red otherwise. */
  function StatusColor(status: string): (r: string)
    ensures r == "#22c55e" || r == "#ef4444"
    ensures r == "#22c55e" <==> status == "approved"
  {
    if status == "approved" then "#22c55e" else "#ef4444"
  }

  /** `profile?.full_name || "User"`. */
  function Greeting(fullName: Option<string>): (r: string)
    ensures r != ""
    ensures Truthy(fullName) ==> r == fullName.value
    ensures !Truthy(fullName) ==> r == "User"
  {
    if Truthy(fullName) then fullName.value else "User"
  }

  /** "Prescription Approved - MedStore" or "Prescription Rejected - MedStore". */
  function Subject(status: string): (r: string)
    ensures |r| == 13 + |StatusText(status)| + 11
    ensures r[..13] == "Prescription " && r[|r| - 11..] == " - MedStore"
    ensures r[13..|r| - 11] == StatusText(status)
  {
    var prefix, text, suffix := "Prescription ", StatusText(status), " - MedStore";
    assert (prefix + text + suffix)[..13] == prefix;
    assert (prefix + text + suffix)[13..13 + |text|] == text;
    prefix + text + suffix
  }

  /** What the e-mail for a request is built from. */
  function Compose(status: string, fullName: Option<string>, pharmacistName: string,
                   comments: Option<string>, rejectionReason: Option<string>): Letter
  {
    Letter(StatusText(status), StatusColor(status), Greeting(fullName), pharmacistName,
           status == "approved" && Truthy(comments), comments.GetOr(""),
           status == "rejected" && Truthy(rejectionReason), rejectionReason.GetOr(""))
  }

  /**
   * The comments box is shown exactly for an approval with non-empty comments and the rejection
   * box exactly for a rejection with a non-empty reason, so never both; the header reads
   * "Approved" in green exactly for an approval and greets the owner by name, or as "User".
   */
  lemma ComposedLetter(status: string, fullName: Option<string>, pharmacistName: string,
                       comments: Option<string>, rejectionReason: Option<string>)
    ensures var letter := Compose(status, fullName, pharmacistName, comments, rejectionReason);
      && (letter.showComments <==> status == "approved" && Truthy(comments))
      && (letter.showRejection <==> status == "rejected" && Truthy(rejectionReason))
      && !(letter.showComments && letter.showRejection)
      && (letter.showComments ==> letter.comments == comments.value)
      && (letter.showRejection ==> letter.rejectionReason == rejectionReason.value)
      && (letter.statusText == "Approved" <==> status == "approved")
      && (letter.statusColor == "#22c55e" <==> status == "approved")
      && letter.recipientName == (if Truthy(fullName) then fullName.value else "User")
  {
    if status == "approved" {
      assert status != "rejected";
    }
  }

  /** For an approval with comments, the comments appear in the e-mail body, whatever its header. */
  lemma ApprovalCommentsReachBody(fullName: Option<string>, pharmacistName: string, comments: Option<string>,
                                  rejectionReason: Option<string>, header: string)
    requires Truthy(comments)
    ensures var l := Compose("approved", fullName, pharmacistName, comments, rejectionReason);
      Text.Contains(HtmlAfter(header, l.showComments, l.comments, l.showRejection, l.rejectionReason), comments.value)
  {
    var l := Compose("approved", fullName, pharmacistName, comments, rejectionReason);
    ComposedLetter("approved", fullName, pharmacistName, comments, rejectionReason);
    ShownCommentsInBody(header, l.comments, l.showRejection, l.rejectionReason);
  }

  /** For a rejection with a reason, the reason appears in the e-mail body, whatever its header. */
  lemma RejectionReasonReachesBody(fullName: Option<string>, pharmacistName: string, comments: Option<string>,
                                   rejectionReason: Option<string>, header: string)
    requires Truthy(rejectionReason)
    ensures var l := Compose("rejected", fullName, pharmacistName, comments, rejectionReason);
      Text.Contains(HtmlAfter(header, l.showComments, l.comments, l.showRejection, l.rejectionReason), rejectionReason.value)
  {
    var l := Compose("rejected", fullName, pharmacistName, comments, rejectionReason);
    ComposedLetter("rejected", fullName, pharmacistName, comments, rejectionReason);
    ShownReasonInBody(header, l.comments, l.rejectionReason);
  }

  /**
   * One request. `authEmails` is what the auth admin API knows (a user it does not know is an
   * error; a known user may have an empty address), `profiles` the full names, and `sendFailure`
   * the message of an exception thrown by the mail provider, if any.
   */
  method HandleRequest(httpMethod: string, req: NotifyRequest, prescriptions: map<Id, Prescription>,
                       authEmails: map<UserId, string>, profiles: map<UserId, string>, sendFailure: Option<string>)
    returns (response: Response)
    ensures httpMethod == "OPTIONS" ==> response == Response(200, NoBody)
    ensures httpMethod != "OPTIONS" && req.prescriptionId !in prescriptions ==>
      response == Response(500, Failure("Prescription not found"))
    ensures httpMethod != "OPTIONS" && req.prescriptionId in prescriptions ==>
      var owner := prescriptions[req.prescriptionId].userId;
      && (owner !in authEmails || authEmails[owner] == "" ==> response == Response(500, Failure("User not found")))
      && (owner in authEmails && authEmails[owner] != "" && sendFailure.Some? ==>
            response == Response(500, Failure(sendFailure.value)))
      && (owner in authEmails && authEmails[owner] != "" && sendFailure.None? ==>
            response == Response(200, Sent(Email(
              Sender,
              [authEmails[owner]],
              Subject(req.status),
              Compose(req.status, if owner in profiles then Some(profiles[owner]) else None,
                      req.pharmacistName, req.comments, req.rejectionReason)))))
    ensures response.status == 200 || response.status == 500
    ensures response.body.Sent? <==> response.status == 200 && httpMethod != "OPTIONS"
  {
    if httpMethod == "OPTIONS" {
      return Response(200, NoBody);
    }
    if req.prescriptionId !in prescriptions {
      return Response(500, Failure("Prescription not found"));
    }
    var owner := prescriptions[req.prescriptionId].userId;
    if owner !in authEmails || authEmails[owner] == "" {
      return Response(500, Failure("User not found"));
    }
    var fullName := if owner in profiles then Some(profiles[owner]) else None;
    var letter := Compose(req.status, fullName, req.pharmacistName, req.comments, req.rejectionReason);
    var email := Email(Sender, [authEmails[owner]], Subject(req.status), letter);
    if sendFailure.Some? {
      return Response(500, Failure(sendFailure.value));
    }
    response := Response(200, Sent(email));
  }
}
