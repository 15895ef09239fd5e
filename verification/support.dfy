/**
 * support.php: a support request. Every missing or invalid field is reported; only a
 * request without errors is stored, and it is then also mailed to the shop's inbox,
 * whether or not the insert succeeded.
 */
module Support {
  import opened Php
  import Csrf
  import Db

  const InvalidForm := "Invalid form submission. Please refresh and try again."
  const NameRequired := "Name is required."
  const EmailRequired := "A valid email is required."
  const SubjectRequired := "Subject is required."
  const MessageRequired := "Message is required."
  const NotSaved := "Unable to save your feedback. Please try again."
  const Unexpected := "Unexpected error. Please try again later."
  const Inbox := "hello@heritagecrafts.local"

  /** A row of support_tickets. */
  datatype Ticket = Ticket(name: string, email: string, subject: string, message: string)

  /** The notification handed to mail(): recipient, subject line, body and sender. */
  datatype Mail = Mail(to: string, subject: string, body: string, from: string)

  /** The four field checks, each reported on its own, in this order. */
  function TicketErrors(name: string, email: string, subject: string, message: string, isEmail: EmailCheck)
    : (r: seq<string>)
    ensures (NameRequired in r) <==> name == ""
    ensures (EmailRequired in r) <==> !isEmail(email)
    ensures (SubjectRequired in r) <==> subject == ""
    ensures (MessageRequired in r) <==> message == ""
    ensures |r| <= 4 && (r == [] <==> name != "" && isEmail(email) && subject != "" && message != "")
  {
    (if name == "" then [NameRequired] else [])
    + (if !isEmail(email) then [EmailRequired] else [])
    + (if subject == "" then [SubjectRequired] else [])
    + (if message == "" then [MessageRequired] else [])
  }

  /** The ticket the form describes: the name, email and subject sanitized, the message only trimmed. */
  function FormTicket(namePost: Option<string>, emailPost: Option<string>, subjectPost: Option<string>,
                      messagePost: Option<string>): Ticket
  {
    Ticket(Sanitize(if namePost.Some? then namePost.value else ""),
           Sanitize(if emailPost.Some? then emailPost.value else ""),
           Sanitize(if subjectPost.Some? then subjectPost.value else ""),
           Trim(if messagePost.Some? then messagePost.value else ""))
  }

  function Notification(t: Ticket): (r: Mail)
    ensures r.to == Inbox && r.from == "From: " + t.email
  {
    Mail(Inbox, "[Support] " + t.subject,
         "New support request from " + t.name + " <" + t.email + ">\n\nSubject: " + t.subject + "\n\n" + t.message,
         "From: " + t.email)
  }

  /** The field checks as the page runs them, appending one message per failed check. */
  method CollectErrors(t: Ticket, isEmail: EmailCheck) returns (errors: seq<string>)
    ensures errors == TicketErrors(t.name, t.email, t.subject, t.message, isEmail)
  {
    var nameErrors := if t.name == "" then [NameRequired] else [];
    var emailErrors := if !isEmail(t.email) then [EmailRequired] else [];
    var subjectErrors := if t.subject == "" then [SubjectRequired] else [];
    errors := [];
    if t.name == "" {
      errors := errors + [NameRequired];
    }
    assert errors == nameErrors;
    if !isEmail(t.email) {
      errors := errors + [EmailRequired];
    }
    assert errors == nameErrors + emailErrors;
    if t.subject == "" {
      errors := errors + [SubjectRequired];
    }
    assert errors == nameErrors + emailErrors + subjectErrors;
    if t.message == "" {
      errors := errors + [MessageRequired];
    }
  }

  /**
   * The POST branch of support.php; `prepared` and `executes` are the fates of the
   * INSERT statement, `mailed` the notification the page hands to mail().
   */
  method Submit(csrf: Csrf.TokenStore, tickets: Db.Table<Ticket>, token: Option<string>,
                namePost: Option<string>, emailPost: Option<string>, subjectPost: Option<string>,
                messagePost: Option<string>, isEmail: EmailCheck, prepared: bool, executes: bool)
    returns (errors: seq<string>, success: bool, mailed: Option<Mail>)
    modifies csrf, tickets
    ensures csrf.tokens == if Csrf.Accepts(old(csrf.tokens), "support_form", token)
                           then Csrf.Consume(old(csrf.tokens), "support_form", token.value) else old(csrf.tokens)
    ensures !Csrf.Accepts(old(csrf.tokens), "support_form", token) ==>
              errors == [InvalidForm] && !success && mailed.None? && tickets.rows == old(tickets.rows)
    ensures Csrf.Accepts(old(csrf.tokens), "support_form", token) ==>
              var t := FormTicket(namePost, emailPost, subjectPost, messagePost);
              var fieldErrors := TicketErrors(t.name, t.email, t.subject, t.message, isEmail);
              && (fieldErrors != [] ==>
                    errors == fieldErrors && !success && mailed.None? && tickets.rows == old(tickets.rows))
              && (fieldErrors == [] ==>
                    mailed == Some(Notification(t))
                    && (success <==> prepared && executes)
                    && errors == (if !prepared then [Unexpected] else if !executes then [NotSaved] else [])
                    && tickets.rows == old(tickets.rows) + (if prepared && executes then [t] else []))
    ensures success ==> errors == [] && |tickets.rows| == |old(tickets.rows)| + 1
    ensures !success ==> tickets.rows == old(tickets.rows)
  {
    errors := [];
    success := false;
    mailed := None;
    var valid := csrf.Validate("support_form", token);
    if !valid {
      errors := errors + [InvalidForm];
      return;
    }
    var t := FormTicket(namePost, emailPost, subjectPost, messagePost);
    errors := CollectErrors(t, isEmail);
    if errors == [] {
      errors, success := Save(tickets, t, prepared, executes);
      mailed := Some(Notification(t));
    }
  }

  /** The insert of a request without errors: prepared, then executed. */
  method Save(tickets: Db.Table<Ticket>, t: Ticket, prepared: bool, executes: bool)
    returns (errors: seq<string>, success: bool)
    modifies tickets
    ensures success <==> prepared && executes
    ensures errors == (if !prepared then [Unexpected] else if !executes then [NotSaved] else [])
    ensures tickets.rows == old(tickets.rows) + (if success then [t] else [])
  {
    errors := [];
    success := false;
    if prepared {
      success := tickets.Insert(t, executes);
      if !success {
        errors := errors + [NotSaved];
      }
    } else {
      errors := errors + [Unexpected];
    }
  }
}
