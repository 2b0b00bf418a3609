/** How an A2A endpoint finds the text of an incoming or returned message.
    The source probes the objects for attributes because the message classes
    differ between SDK versions; here every probe has an explicit answer. */
module A2AParts {
  import opened Wrappers

  /** What a part answers when asked for `model_dump()` or `dict()`: the method is
      missing, or the dictionary it returns has (or lacks) a `text` entry. */
  datatype Dump = NoMethod | Dumped(text: Option<string>)

  /** A message part: its `text` attribute ("" when missing, None or empty),
      its two dictionary views and `str(part)`. */
  datatype Part = Part(text: string, modelDump: Dump, dictDump: Dump, repr: string)

  /** A message and its `parts` ([] when missing or empty). */
  datatype Message = Message(parts: seq<Part>)

  /** One attribute lookup on the request context: missing, or present with a
      value that may be None. */
  datatype Slot = Missing | Present(message: Option<Message>)

  /** `context.message` and `context.request.message`. */
  datatype RequestContext = RequestContext(message: Slot, requestMessage: Slot)

  /** The text of one part: the `text` attribute, else the `text` entry of
      `model_dump()`, else that of `dict()`, else `str(part)`. */
  function PartText(p: Part): string {
    if p.text != "" then p.text
    else if p.modelDump.Dumped? then p.modelDump.text.GetOr("")
    else if p.dictDump.Dumped? then p.dictDump.text.GetOr("")
    else p.repr
  }

  /** `context.message` if that attribute exists, else `context.request.message`, else None. */
  function LocateMessage(ctx: RequestContext): Option<Message> {
    if ctx.message.Present? then ctx.message.message
    else if ctx.requestMessage.Present? then ctx.requestMessage.message
    else None
  }

  /** The text the agent works on: that of the first part of the located message,
      or "" when there is no message or it has no parts. */
  function ReceivedText(ctx: RequestContext): (r: string)
    ensures r != "" ==> LocateMessage(ctx).Some? && LocateMessage(ctx).value.parts != []
    ensures LocateMessage(ctx).Some? && LocateMessage(ctx).value.parts != [] ==>
      r == PartText(LocateMessage(ctx).value.parts[0])
  {
    match LocateMessage(ctx)
    case Some(m) => if m.parts != [] then PartText(m.parts[0]) else ""
    case None => ""
  }

  /** The order in which a part's text is looked for: a non-empty `text` attribute
      wins whatever the dictionary views say; otherwise `model_dump()` is asked
      whatever `dict()` says, and its missing `text` entry gives ""; then `dict()`;
      `str(part)` only when neither method exists. */
  lemma PartTextOrder(t: string, modelDump: Dump, dictDump: Dump, repr: string)
    ensures t != "" ==> PartText(Part(t, modelDump, dictDump, repr)) == t
    ensures modelDump.Dumped? ==>
      PartText(Part("", modelDump, dictDump, repr)) == modelDump.text.GetOr("")
    ensures dictDump.Dumped? ==>
      PartText(Part("", NoMethod, dictDump, repr)) == dictDump.text.GetOr("")
    ensures PartText(Part("", NoMethod, NoMethod, repr)) == repr
  {
  }

  /** When `context.message` exists it is the one read, even when it is None:
      `context.request.message` is then never consulted. Only without it is
      `context.request.message` read, and with neither the text is "". */
  lemma MessageAttributeFirst(m: Option<Message>, request1: Slot, request2: Slot)
    ensures ReceivedText(RequestContext(Present(m), request1))
         == ReceivedText(RequestContext(Present(m), request2))
    ensures ReceivedText(RequestContext(Present(None), request1)) == ""
    ensures ReceivedText(RequestContext(Missing, Present(m)))
         == ReceivedText(RequestContext(Present(m), request1))
    ensures ReceivedText(RequestContext(Missing, Missing)) == ""
  {
  }

  /** Only the first part is read: the parts after it never change the text. */
  lemma FirstPartOnly(ctx: RequestContext, first: Part, rest1: seq<Part>, rest2: seq<Part>)
    ensures ReceivedText(ctx.(message := Present(Some(Message([first] + rest1)))))
         == ReceivedText(ctx.(message := Present(Some(Message([first] + rest2)))))
         == PartText(first)
  {
  }
}
