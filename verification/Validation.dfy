/** What the API accepts, and the row an accepted item is stored as. */
module Validation {
  import opened Domain
  import opened Text

  datatype CreateItem = CreateItem(
    recipient: string,
    channel: string,
    content: Option<string>,
    template: Option<nat>,
    payload: string,
    priority: string,
    key: Option<string>,
    scheduledAt: Option<int>)

  /** In the order in which they are looked for. */
  datatype Problem =
    | NoRecipient
    | BadChannel
    | BadPriority
    | NoBody
    | NoPayload
    | SmsTooLong
    | SubjectTooLong
    | EmailBodyTooLong
    | TitleTooLong
    | PushBodyTooLong

  const MAX_SMS: nat := 1600
  const MAX_EMAIL_SUBJECT: nat := 998
  const MAX_EMAIL_BODY: nat := 262_144
  const MAX_PUSH_TITLE: nat := 50
  const MAX_PUSH_BODY: nat := 200

  function ParseChannel(s: string): Option<Channel> {
    if s == "sms" then Some(Sms) else if s == "email" then Some(Email) else if s == "push" then Some(Push) else None
  }

  /** No priority means normal. */
  function ParsePriority(s: string): Option<Priority> {
    if s == "high" then Some(High)
    else if s == "normal" || s == "" then Some(Normal)
    else if s == "low" then Some(Low)
    else None
  }

  function ContentOf(i: CreateItem): string {
    if i.content.Some? then Trim(i.content.value) else ""
  }

  /** The limits on inline text, which is already trimmed. */
  function ContentProblem(ch: Channel, c: string): Option<Problem> {
    match ch
    case Sms => if ByteLen(c) > MAX_SMS then Some(SmsTooLong) else None
    case Email =>
      if ByteLen(Trim(FirstLine(c))) > MAX_EMAIL_SUBJECT then Some(SubjectTooLong)
      else if ByteLen(AfterFirstLine(c)) > MAX_EMAIL_BODY then Some(EmailBodyTooLong)
      else None
    case Push =>
      if ByteLen(Trim(FirstLine(c))) > MAX_PUSH_TITLE then Some(TitleTooLong)
      else if ByteLen(Trim(AfterFirstLine(c))) > MAX_PUSH_BODY then Some(PushBodyTooLong)
      else None
  }

  function Validate(i: CreateItem): Option<Problem> {
    if Trim(i.recipient) == "" then Some(NoRecipient)
    else
      match ParseChannel(i.channel)
      case None => Some(BadChannel)
      case Some(ch) =>
        if ParsePriority(i.priority).None? then Some(BadPriority)
        else
          var hasContent := i.content.Some? && Trim(i.content.value) != "";
          if !hasContent && i.template.None? then Some(NoBody)
          else if i.template.Some? && i.payload == "" then Some(NoPayload)
          else if hasContent then ContentProblem(ch, ContentOf(i))
          else None
  }

  // ---- what it means -----------------------------------------------------------------------------

  predicate BlankContent(i: CreateItem) {
    i.content.None? || Blank(i.content.value)
  }

  /** Subject or title, and the rest, of the stripped content. */
  ghost predicate Lines(i: CreateItem, head: string, tail: string) {
    i.content.Some? && exists c :: Stripped(i.content.value, c) && Cut(c, head, tail)
  }

  /** The text is longer than this even without surrounding blanks. */
  ghost predicate LongStripped(s: string, limit: nat) {
    exists t :: Stripped(s, t) && ByteLen(t) > limit
  }

  lemma LongIff(s: string, limit: nat)
    ensures LongStripped(s, limit) <==> ByteLen(Trim(s)) > limit
  {
    forall t ensures Stripped(s, t) <==> t == Trim(s) {
      StrippedIsTrim(s, t);
    }
  }

  /** The item has this fault, whatever other faults it has. */
  ghost predicate Wrong(i: CreateItem, p: Problem) {
    match p
    case NoRecipient => Blank(i.recipient)
    case BadChannel => i.channel !in {"sms", "email", "push"}
    case BadPriority => i.priority !in {"high", "normal", "low", ""}
    case NoBody => BlankContent(i) && i.template.None?
    case NoPayload => i.template.Some? && i.payload == ""
    case SmsTooLong =>
      i.channel == "sms" && i.content.Some? && LongStripped(i.content.value, 1600)
    case SubjectTooLong =>
      i.channel == "email" && exists head, tail :: Lines(i, head, tail) && LongStripped(head, 998)
    case EmailBodyTooLong =>
      i.channel == "email" && exists head, tail :: Lines(i, head, tail) && ByteLen(tail) > 262_144
    case TitleTooLong =>
      i.channel == "push" && exists head, tail :: Lines(i, head, tail) && LongStripped(head, 50)
    case PushBodyTooLong =>
      i.channel == "push" && exists head, tail :: Lines(i, head, tail) && LongStripped(tail, 200)
  }

  function Rank(p: Problem): nat {
    match p
    case NoRecipient => 0
    case BadChannel => 1
    case BadPriority => 2
    case NoBody => 3
    case NoPayload => 4
    case SmsTooLong => 5
    case SubjectTooLong => 6
    case EmailBodyTooLong => 7
    case TitleTooLong => 8
    case PushBodyTooLong => 9
  }

  lemma LinesAre(i: CreateItem, head: string, tail: string)
    ensures Lines(i, head, tail) <==>
              i.content.Some? && head == FirstLine(ContentOf(i)) && tail == AfterFirstLine(ContentOf(i))
  {
    if i.content.Some? {
      StrippedIsTrim(i.content.value, Trim(i.content.value));
      CutAtFirstLine(Trim(i.content.value), head, tail);
      if Lines(i, head, tail) {
        var c :| Stripped(i.content.value, c) && Cut(c, head, tail);
        StrippedIsTrim(i.content.value, c);
      }
    }
  }

  lemma LinesKnown(i: CreateItem)
    requires i.content.Some?
    ensures Lines(i, FirstLine(ContentOf(i)), AfterFirstLine(ContentOf(i)))
    ensures forall head, tail :: Lines(i, head, tail) ==>
              head == FirstLine(ContentOf(i)) && tail == AfterFirstLine(ContentOf(i))
  {
    LinesAre(i, FirstLine(ContentOf(i)), AfterFirstLine(ContentOf(i)));
    forall head, tail | Lines(i, head, tail)
      ensures head == FirstLine(ContentOf(i)) && tail == AfterFirstLine(ContentOf(i))
    {
      LinesAre(i, head, tail);
    }
  }

  lemma WrongSms(i: CreateItem)
    requires i.content.Some?
    ensures Wrong(i, SmsTooLong) <==> i.channel == "sms" && ByteLen(ContentOf(i)) > MAX_SMS
  {
    LongIff(i.content.value, MAX_SMS);
  }

  lemma WrongEmail(i: CreateItem)
    requires i.content.Some?
    ensures
      var c := ContentOf(i);
      && (Wrong(i, SubjectTooLong) <==> i.channel == "email" && ByteLen(Trim(FirstLine(c))) > MAX_EMAIL_SUBJECT)
      && (Wrong(i, EmailBodyTooLong) <==> i.channel == "email" && ByteLen(AfterFirstLine(c)) > MAX_EMAIL_BODY)
  {
    LinesKnown(i);
    LongIff(FirstLine(ContentOf(i)), MAX_EMAIL_SUBJECT);
  }

  lemma WrongPush(i: CreateItem)
    requires i.content.Some?
    ensures
      var c := ContentOf(i);
      && (Wrong(i, TitleTooLong) <==> i.channel == "push" && ByteLen(Trim(FirstLine(c))) > MAX_PUSH_TITLE)
      && (Wrong(i, PushBodyTooLong) <==> i.channel == "push" && ByteLen(Trim(AfterFirstLine(c))) > MAX_PUSH_BODY)
  {
    LinesKnown(i);
    LongIff(FirstLine(ContentOf(i)), MAX_PUSH_TITLE);
    LongIff(AfterFirstLine(ContentOf(i)), MAX_PUSH_BODY);
  }

  lemma WrongText(i: CreateItem)
    requires i.content.Some?
    ensures
      var c := ContentOf(i);
      && (Wrong(i, SmsTooLong) <==> i.channel == "sms" && ByteLen(c) > MAX_SMS)
      && (Wrong(i, SubjectTooLong) <==> i.channel == "email" && ByteLen(Trim(FirstLine(c))) > MAX_EMAIL_SUBJECT)
      && (Wrong(i, EmailBodyTooLong) <==> i.channel == "email" && ByteLen(AfterFirstLine(c)) > MAX_EMAIL_BODY)
      && (Wrong(i, TitleTooLong) <==> i.channel == "push" && ByteLen(Trim(FirstLine(c))) > MAX_PUSH_TITLE)
      && (Wrong(i, PushBodyTooLong) <==> i.channel == "push" && ByteLen(Trim(AfterFirstLine(c))) > MAX_PUSH_BODY)
  {
    WrongSms(i);
    WrongEmail(i);
    WrongPush(i);
  }

  /** An item is reported for the first fault it has, in the fixed order, and only then. */
  lemma ValidateReportsFirst(i: CreateItem, p: Problem)
    ensures Validate(i) == Some(p) <==> Wrong(i, p) && forall q :: Wrong(i, q) ==> Rank(p) <= Rank(q)
  {
    FirstWrong(i);
  }

  /** Accepted means free of every fault. */
  lemma AcceptedIff(i: CreateItem)
    ensures Validate(i).None? <==> forall q :: !Wrong(i, q)
  {
    FirstWrong(i);
  }

  lemma FirstWrong(i: CreateItem)
    ensures
      match Validate(i)
      case None => forall q :: !Wrong(i, q)
      case Some(p) => Wrong(i, p) && forall q :: Wrong(i, q) ==> Rank(p) <= Rank(q)
  {
    if Validate(i).Some? {
      FoundIsWrong(i);
    }
    forall q | Wrong(i, q) ensures Validate(i).Some? && Rank(Validate(i).value) <= Rank(q) {
      WrongIsFound(i, q);
    }
  }

  lemma FoundIsWrong(i: CreateItem)
    requires Validate(i).Some?
    ensures Wrong(i, Validate(i).value)
  {
    BlankTrims(i.recipient);
    if i.content.Some? {
      BlankTrims(i.content.value);
      FirstWrongText(i);
    }
  }

  lemma WrongIsFound(i: CreateItem, q: Problem)
    requires Wrong(i, q)
    ensures Validate(i).Some? && Rank(Validate(i).value) <= Rank(q)
  {
    if Rank(q) < Rank(SmsTooLong) {
      FormIsFound(i, q);
    } else {
      LimitIsFound(i, q);
    }
  }

  lemma FormIsFound(i: CreateItem, q: Problem)
    requires Wrong(i, q) && Rank(q) < Rank(SmsTooLong)
    ensures Validate(i).Some? && Rank(Validate(i).value) <= Rank(q)
  {
    if q.NoRecipient? {
      BlankTrims(i.recipient);
    } else if q.NoBody? || q.NoPayload? {
      BodyIsFound(i, q);
    }
  }

  lemma BodyIsFound(i: CreateItem, q: Problem)
    requires Wrong(i, q) && (q.NoBody? || q.NoPayload?)
    ensures Validate(i).Some? && Rank(Validate(i).value) <= Rank(q)
  {
    if q.NoBody? && i.content.Some? {
      BlankTrims(i.content.value);
    }
  }

  lemma LimitIsFound(i: CreateItem, q: Problem)
    requires Wrong(i, q) && Rank(q) >= Rank(SmsTooLong)
    ensures i.content.Some? && Trim(i.content.value) != "" && ParseChannel(i.channel).Some?
    ensures
      var found := ContentProblem(ParseChannel(i.channel).value, ContentOf(i));
      found.Some? && Rank(SmsTooLong) <= Rank(found.value) <= Rank(q)
  {
    FirstWrongText(i);
    NothingToMeasure(i);
  }

  /** Among the limits. */
  lemma FirstWrongText(i: CreateItem)
    requires i.content.Some?
    ensures
      var found := if ParseChannel(i.channel).None? then None
                   else ContentProblem(ParseChannel(i.channel).value, ContentOf(i));
      && (forall q :: Wrong(i, q) && Rank(q) >= Rank(SmsTooLong) ==> found.Some? && Rank(found.value) <= Rank(q))
      && (found.Some? ==> Wrong(i, found.value) && Rank(found.value) >= Rank(SmsTooLong))
  {
    WrongText(i);
  }

  /** Blank content breaks no limit. */
  lemma NothingToMeasure(i: CreateItem)
    requires i.content.Some?
    ensures ContentOf(i) == "" ==> forall q :: Wrong(i, q) ==> Rank(q) < Rank(SmsTooLong)
  {
    WrongText(i);
  }

  // ---- storing ---------------------------------------------------------------------------------------

  /** The key an item is deduplicated by. */
  function KeyOf(i: CreateItem): Option<string> {
    if i.key.Some? && Trim(i.key.value) != "" then Some(Trim(i.key.value)) else None
  }

  function ToRow(i: CreateItem, batch: Option<nat>, createdAt: int): Row
    requires Validate(i).None?
  {
    Row(Pending, i.scheduledAt, None, KeyOf(i), batch, createdAt, Trim(i.recipient), ParseChannel(i.channel).value,
        ParsePriority(i.priority).value, if i.content.Some? then Some(Trim(i.content.value)) else None, i.template,
        if i.payload != "" then Some(i.payload) else None)
  }

  /** What is stored for an accepted item, column by column: texts without surrounding blanks, the channel
      and priority it names, normal if it names none, a key only when it has one, and nothing yet of a
      delivery. */
  lemma StoredColumns(i: CreateItem, batch: Option<nat>, at: int)
    requires Validate(i).None?
    ensures
      var row := ToRow(i, batch, at);
      && row.status == Pending && row.provider == None && row.batch == batch && row.createdAt == at
      && row.scheduledAt == i.scheduledAt && row.template == i.template
      && row.payload == (if i.payload == "" then None else Some(i.payload))
      && Stripped(i.recipient, row.recipient) && row.recipient != ""
      && (row.content.Some? <==> i.content.Some?)
      && (i.content.Some? ==> Stripped(i.content.value, row.content.value))
      && (row.key.Some? <==> i.key.Some? && !Blank(i.key.value))
      && (row.key.Some? ==> Stripped(i.key.value, row.key.value))
    ensures
      var row := ToRow(i, batch, at);
      && (row.channel == Sms <==> i.channel == "sms") && (row.channel == Email <==> i.channel == "email")
      && (row.channel == Push <==> i.channel == "push")
      && (row.priority == High <==> i.priority == "high") && (row.priority == Low <==> i.priority == "low")
      && (row.priority == Normal <==> i.priority in {"normal", ""})
  {
    StrippedIsTrim(i.recipient, Trim(i.recipient));
    if i.content.Some? {
      StrippedIsTrim(i.content.value, Trim(i.content.value));
    }
    if i.key.Some? {
      BlankTrims(i.key.value);
      StrippedIsTrim(i.key.value, Trim(i.key.value));
    }
  }

  /** The CHECK constraint of the table. */
  predicate BodyCheck(row: Row) {
    row.content.Some? || (row.template.Some? && row.payload.Some?)
  }

  /** Every accepted item satisfies the constraint, so storing it cannot fail for its body. */
  lemma AcceptedMeetsCheck(i: CreateItem, batch: Option<nat>, createdAt: int)
    requires Validate(i).None?
    ensures BodyCheck(ToRow(i, batch, createdAt))
  {
  }
}
