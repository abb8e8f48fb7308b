/**
 * ultimonitor/email.py: the subject and body of a milestone notification.
 * Building the MIME message, the camera attachments and sending are left
 * to the mail library and are not part of this model: a `Mail` here is the
 * subject, body and addressing `makeEmailUpdate` hands to it.
 */
module Email {
  import opened Wrappers
  import Text

  datatype EmailConfig = EmailConfig(user: string, toaddr: string, fromname: string, footer: Option<string>)

  datatype Mail = Mail(subject: string, body: string, sender: string, recipient: string, fromname: string)

  /** An etype with no branch leaves `subject` and `body` unbound: the source raises there. */
  datatype EmailError = SubjectUnbound(etype: string)

  /** The notification types that have a subject and an introduction. */
  const MailTypes: set<string> := {"start", "done10", "done50", "done90", "end"}

  /** Every body ends with this signature. */
  const Signature: string := "\n\nYour 3D pal, \nThe Great Printzini"

  /** The end of the subject line for each notification type. */
  function SubjectTail(etype: string): (r: Option<string>)
    ensures r.Some? <==> etype in MailTypes
  {
    if etype == "start" then Some("started!")
    else if etype == "done10" then Some("10% complete!")
    else if etype == "done50" then Some("50% complete!")
    else if etype == "done90" then Some("90% complete!")
    else if etype == "end" then Some("100% complete!")
    else None
  }

  /** The opening paragraphs of the five bodies. */
  const StartIntro: string :=
    "Hello! I am the Great Printzini!  I have discovered a brand new 3D print job!"
    + "\nHere are the details that the spirits shared:"
  const Done10Intro: string :=
    "Hello again! The print job appears to be still going."
    + "  I'm not smart enough to know if it's *actually* going"
    + " ok though, so you should probably check for any adhesion"
    + " or stringing problems!"
    + "\nHere is the latest on temperature performance:"
  const Done50Intro: string :=
    "Hello again! Congratulations on getting this far!"
    + "\nHere is the latest on temperature performance:"
  const Done90Intro: string :=
    "Hello again! Wow! It's almost done!"
    + "\nHere is the latest on temperature performance:"
  const EndIntro: string :=
    "Hello again! It's complete! Please come fetch your print!"
    + "\n\nRemember to acknowledge/click the 'Print Removed'"
    + " button on the printer's screen! I won't"
    + " know you're really done otherwise!"
    + "\nHere are the final temperature statistics:"

  /** The opening paragraph of the body for each notification type. */
  function Intro(etype: string): (r: Option<string>)
    ensures r.Some? <==> etype in MailTypes
  {
    if etype == "start" then Some(StartIntro)
    else if etype == "done10" then Some(Done10Intro)
    else if etype == "done50" then Some(Done50Intro)
    else if etype == "done90" then Some(Done90Intro)
    else if etype == "end" then Some(EndIntro)
    else None
  }

  /** The part of the subject shared by every type: `Print job '<name>' (<id>) `. */
  function SubjectHead(jobname: string, jobid: string): (r: string)
    ensures |r| == |jobname| + |jobid| + 16
    ensures r[11..11 + |jobname|] == jobname
    ensures r[14 + |jobname|..14 + |jobname| + |jobid|] == jobid
  {
    var r := "Print job '" + jobname + "' (" + jobid + ") ";
    assert r == ("Print job '" + jobname + "' (") + jobid + ") ";
    r
  }

  /** A missing footer is the empty string. */
  function FooterText(config: EmailConfig): string
  {
    match config.footer
    case None => ""
    case Some(f) => f
  }

  /** The body: introduction, status text, footer and signature, blank lines between them. */
  function Body(intro: string, strStat: string, footer: string): (r: string)
    ensures |r| == |intro| + |strStat| + |footer| + |Signature| + 4
    ensures r[..|intro|] == intro
    ensures r[|intro| + 2..|intro| + 2 + |strStat|] == strStat
    ensures r[|intro| + |strStat| + 4..|intro| + |strStat| + 4 + |footer|] == footer
    ensures r[|r| - |Signature|..] == Signature
  {
    var r := intro + "\n\n" + strStat + "\n\n" + footer + Signature;
    assert r == (intro + "\n\n") + strStat + ("\n\n" + footer + Signature);
    assert r == (intro + "\n\n" + strStat + "\n\n") + footer + Signature;
    r
  }

  /** The status text can be read back from the body: same introduction and footer, different status, different body. */
  lemma StatusRecoverable(intro: string, s1: string, s2: string, footer: string)
    requires Body(intro, s1, footer) == Body(intro, s2, footer)
    ensures s1 == s2
  {
    var b := Body(intro, s1, footer);
    assert |s1| == |s2|;
    assert s1 == b[|intro| + 2..|intro| + 2 + |s1|] == s2;
  }

  /**
   * `makeEmailUpdate` without attachments: nothing when mail is disabled, an
   * error for an unknown type, else the mail whose subject names the job
   * and the milestone and whose body carries the status text.
   */
  function MakeEmailUpdate(etype: string, jobid: string, jobname: string, strStat: string,
                           config: Option<EmailConfig>): (r: Result<Option<Mail>, EmailError>)
    ensures config.None? ==> r == Ok(None)
    ensures config.Some? && etype !in MailTypes ==> r == Err(SubjectUnbound(etype))
    ensures config.Some? && etype in MailTypes ==>
      && r.Ok? && r.value.Some?
      && var m := r.value.value;
      && m.sender == config.value.user
      && m.recipient == config.value.toaddr
      && m.fromname == config.value.fromname
      && m.subject == SubjectHead(jobname, jobid) + SubjectTail(etype).value
      && m.body == Body(Intro(etype).value, strStat, FooterText(config.value))
  {
    match config
    case None => Ok(None)
    case Some(c) =>
      if etype !in MailTypes then Err(SubjectUnbound(etype))
      else
        var subject := SubjectHead(jobname, jobid) + SubjectTail(etype).value;
        var body := Body(Intro(etype).value, strStat, FooterText(c));
        Ok(Some(Mail(subject, body, c.user, c.toaddr, c.fromname)))
  }

  /** The five subject endings differ from one another. */
  lemma TailsDistinct(e1: string, e2: string)
    requires e1 in MailTypes && e2 in MailTypes && e1 != e2
    ensures SubjectTail(e1).value != SubjectTail(e2).value
  {
    var t1 := SubjectTail(e1).value;
    var t2 := SubjectTail(e2).value;
    if |t1| == |t2| {
      assert t1[0] != t2[0];
    }
  }

  /** For one job, the five notification types have five different subjects. */
  lemma SubjectsDistinct(e1: string, e2: string, jobid: string, jobname: string, s: string, config: EmailConfig)
    requires e1 in MailTypes && e2 in MailTypes && e1 != e2
    ensures MakeEmailUpdate(e1, jobid, jobname, s, Some(config)).value.value.subject
         != MakeEmailUpdate(e2, jobid, jobname, s, Some(config)).value.value.subject
  {
    var head := SubjectHead(jobname, jobid);
    var s1 := head + SubjectTail(e1).value;
    var s2 := head + SubjectTail(e2).value;
    assert s1[|head|..] == SubjectTail(e1).value;
    assert s2[|head|..] == SubjectTail(e2).value;
    TailsDistinct(e1, e2);
  }
}
