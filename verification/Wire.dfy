/** From an accepted item to what the webhook is sent. */
module Wire {
  import opened Domain
  import opened Text
  import opened Validation
  import opened Protocol
  import opened Runs
  import opened Safety
  import Template
  import Theorems

  datatype TemplateRow = TemplateRow(body: string, channel: Channel)

  /** What every message about a row carries, whoever publishes it. */
  datatype Envelope = Envelope(
    id: nat, recipient: string, channel: Channel, content: Option<string>, template: Option<nat>,
    payload: Option<string>, priority: Priority)

  function EnvelopeOf(id: nat, row: Row): Envelope {
    Envelope(id, row.recipient, row.channel, row.content, row.template, row.payload, row.priority)
  }

  /** How the database call for the template and the JSON decoder behave. */
  datatype Lookup = Lookup(templates: map<nat, TemplateRow>, db: Db, decode: string -> Option<map<string, string>>)

  datatype Built = Outbound(env: Envelope) | MissingContent | ChannelMismatch | NotRendered | LookupError

  function PayloadOf(payload: Option<string>, look: Lookup): Template.Payload {
    if payload.None? || payload.value == "" then Template.Empty
    else
      match look.decode(payload.value)
      case None => Template.Malformed
      case Some(m) => Template.Fields(m)
  }

  /** The worker's message to the webhook, from the row it read and the message it handles. */
  function BuildOutbound(row: Row, env: Envelope, look: Lookup): Built {
    var bare := env.(template := None, payload := None);
    if row.content.Some? && Trim(row.content.value) != "" then Outbound(bare.(content := Some(Trim(row.content.value))))
    else if row.template.None? then MissingContent
    else if !look.db.Fine? || row.template.value !in look.templates then LookupError
    else
      var tpl := look.templates[row.template.value];
      if tpl.channel != row.channel then ChannelMismatch
      else
        match Template.Render(tpl.body, PayloadOf(row.payload, look))
        case Ok(text) => Outbound(bare.(content := Some(text)))
        case _ => NotRendered
  }

  /** How the handler goes on: a refusal marks the row failed, an error dead-letters the message. */
  function ResultOf(b: Built): BuildResult {
    match b
    case Outbound(_) => BuildOk
    case LookupError => BuildError
    case _ => BuildPermanent
  }

  /** In every later state of every run, the row stored for an accepted item still has everything
      the item had. */
  lemma StoredStays(
    states: seq<State>, steps: seq<Step>, i: nat, j: nat, n: nat, item: CreateItem, batch: Option<nat>, at: int)
    requires Run(states, steps) && i <= j < |states| && n in states[i].cells
    requires Validate(item).None? && states[i].cells[n].row == ToRow(item, batch, at)
    ensures n in states[j].cells
    ensures
      var row := states[j].cells[n].row;
      row == ToRow(item, batch, at).(status := row.status, provider := row.provider) && BodyCheck(row)
  {
    Theorems.StatusMachine(states, steps, i, j, n);
    AcceptedMeetsCheck(item, batch, at);
  }

  /** The message published in state j and built on in state k; both later than the insertion. */
  ghost function BuiltLater(states: seq<State>, j: nat, k: nat, n: nat, look: Lookup): Built
    requires j < |states| && k < |states| && n in states[j].cells && n in states[k].cells
  {
    BuildOutbound(states[k].cells[n].row, EnvelopeOf(n, states[j].cells[n].row), look)
  }

  /** Inline content: whenever the message was published and whenever the worker builds on it, the
      webhook is sent the recipient, channel and priority that were accepted and exactly the
      trimmed text whose lengths were checked. */
  lemma InlineOnTheWire(
    states: seq<State>, steps: seq<Step>, i: nat, j: nat, k: nat,
    n: nat, item: CreateItem, batch: Option<nat>, at: int, look: Lookup)
    requires Run(states, steps) && i <= j < |states| && i <= k < |states| && n in states[i].cells
    requires Validate(item).None? && states[i].cells[n].row == ToRow(item, batch, at) && !BlankContent(item)
    ensures n in states[j].cells && n in states[k].cells
    ensures
      var text := Trim(item.content.value);
      && BuiltLater(states, j, k, n, look)
         == Outbound(Envelope(n, Trim(item.recipient), ParseChannel(item.channel).value, Some(text), None, None,
                              ParsePriority(item.priority).value))
      && ContentProblem(ParseChannel(item.channel).value, text).None?
      && text != "" && Trim(text) == text
  {
    StoredStays(states, steps, i, j, n, item, batch, at);
    StoredStays(states, steps, i, k, n, item, batch, at);
    TrimIdempotent(item.content.value);
    BlankTrims(item.content.value);
  }

  /** Template content: the worker never finds content missing, and it sends something exactly when
      the template can be read, is for this channel, and renders with the accepted payload. */
  lemma TemplateOnTheWire(
    states: seq<State>, steps: seq<Step>, i: nat, j: nat, k: nat,
    n: nat, item: CreateItem, batch: Option<nat>, at: int, look: Lookup)
    requires Run(states, steps) && i <= j < |states| && i <= k < |states| && n in states[i].cells
    requires Validate(item).None? && states[i].cells[n].row == ToRow(item, batch, at) && BlankContent(item)
    ensures n in states[j].cells && n in states[k].cells && item.template.Some? && item.payload != ""
    ensures
      var built := BuiltLater(states, j, k, n, look);
      var t := item.template.value;
      && !built.MissingContent?
      && (built.LookupError? <==> !look.db.Fine? || t !in look.templates)
      && (built.ChannelMismatch? <==>
            look.db.Fine? && t in look.templates && Some(look.templates[t].channel) != ParseChannel(item.channel))
      && (built.Outbound? <==>
            && look.db.Fine? && t in look.templates && Some(look.templates[t].channel) == ParseChannel(item.channel)
            && exists text :: RendersTo(item, look, text))
  {
    StoredStays(states, steps, i, j, n, item, batch, at);
    StoredStays(states, steps, i, k, n, item, batch, at);
    StoredBlank(item, batch, at);
    if item.template.value in look.templates {
      RenderedIff(item, look);
    }
  }

  /** The text is the template's body with each placeholder replaced by its value in the payload, and holds
      no placeholder. */
  ghost predicate RendersTo(item: CreateItem, look: Lookup, text: string)
    requires item.template.Some? && item.template.value in look.templates
  {
    var body := look.templates[item.template.value].body;
    if Template.Contains(body) then
      var fields := look.decode(item.payload);
      fields.Some? && Template.KeysPresent(Template.Scan(body), fields.value)
      && Template.FilledIn(Template.Scan(body), fields.value, text) && !Template.Contains(text)
    else text == body
  }

  /** What it then sends is the template filled in, to the accepted recipient. */
  lemma TemplatePosted(
    states: seq<State>, steps: seq<Step>, i: nat, j: nat, k: nat,
    n: nat, item: CreateItem, batch: Option<nat>, at: int, look: Lookup)
    requires Run(states, steps) && i <= j < |states| && i <= k < |states| && n in states[i].cells
    requires Validate(item).None? && states[i].cells[n].row == ToRow(item, batch, at) && BlankContent(item)
    ensures n in states[j].cells && n in states[k].cells && item.template.Some? && item.payload != ""
    ensures
      var built := BuiltLater(states, j, k, n, look);
      built.Outbound? ==>
        && item.template.value in look.templates && built.env.content.Some?
        && RendersTo(item, look, built.env.content.value)
        && built.env == Envelope(n, Trim(item.recipient), ParseChannel(item.channel).value, built.env.content,
                                 None, None, ParsePriority(item.priority).value)
  {
    StoredStays(states, steps, i, j, n, item, batch, at);
    StoredStays(states, steps, i, k, n, item, batch, at);
    StoredBlank(item, batch, at);
    if item.template.value in look.templates {
      RenderedIff(item, look);
    }
  }

  /** The rendering yields this text exactly if the template renders to it. */
  lemma RenderedIff(item: CreateItem, look: Lookup)
    requires item.template.Some? && item.template.value in look.templates && item.payload != ""
    ensures forall text :: RenderedFor(item, look) == Template.Ok(text) <==> RendersTo(item, look, text)
  {
    var body := look.templates[item.template.value].body;
    forall text ensures RenderedFor(item, look) == Template.Ok(text) <==> RendersTo(item, look, text) {
      Template.RenderSucceedsIff(body, PayloadOf(Some(item.payload), look), text);
    }
  }

  /** The accepted item's template rendered with its accepted payload. */
  function RenderedFor(item: CreateItem, look: Lookup): Template.Rendered
    requires item.template.Some? && item.template.value in look.templates
  {
    Template.Render(look.templates[item.template.value].body, PayloadOf(Some(item.payload), look))
  }

  /** What is sent for a template holds no placeholder. */
  lemma TemplateTextClosed(item: CreateItem, look: Lookup)
    requires item.template.Some? && item.template.value in look.templates
    ensures RenderedFor(item, look).Ok? ==> !Template.Contains(RenderedFor(item, look).text)
  {
    var body := look.templates[item.template.value].body;
    if RenderedFor(item, look).Ok? {
      Template.RenderedMeaning(body, PayloadOf(Some(item.payload), look), Template.Empty);
    }
  }

  lemma StoredBlank(item: CreateItem, batch: Option<nat>, at: int)
    requires Validate(item).None? && BlankContent(item)
    ensures
      var row := ToRow(item, batch, at);
      && row.template == item.template && row.template.Some? && row.payload == Some(item.payload) && item.payload != ""
      && (row.content.Some? ==> Trim(row.content.value) == "")
  {
    if item.content.Some? {
      BlankTrims(item.content.value);
    }
  }

  /** Whatever row is stored, text that is not blank is sent stripped, in the message's own envelope. */
  lemma InlineIsStripped(row: Row, env: Envelope, look: Lookup)
    requires row.content.Some? && !Blank(row.content.value)
    ensures
      var built := BuildOutbound(row, env, look);
      && built.Outbound? && built.env.content.Some? && Stripped(row.content.value, built.env.content.value)
      && built.env == env.(content := built.env.content, template := None, payload := None)
  {
    BlankTrims(row.content.value);
    StrippedIsTrim(row.content.value, Trim(row.content.value));
  }

  /** Without the accepted item's template, content is missing exactly when none was stored. */
  lemma MissingContentIff(row: Row, env: Envelope, look: Lookup)
    ensures BuildOutbound(row, env, look).MissingContent? <==>
              (row.content.None? || Blank(row.content.value)) && row.template.None?
  {
    if row.content.Some? {
      BlankTrims(row.content.value);
    }
  }
}
